/**
 * The platform icon chosen for a social profile or a page: a lookup in a record keyed by
 * platform name, with Instagram's icon when the name is not one of its keys.
 */
module Platforms {

  datatype Icon = FaInstagram | FaXTwitter | FaFacebook | FaLinkedin

  /** The platform names the icon record has as keys. */
  predicate KnownPlatform(p: string) {
    p == "INSTAGRAM" || p == "TWITTER" || p == "FACEBOOK" || p == "LINKEDIN"
  }

  /** `{ INSTAGRAM: FaInstagram, TWITTER: FaXTwitter, ... }[p] || FaInstagram` */
  function PlatformIcon(p: string): (i: Icon)
    ensures p == "TWITTER" <==> i == FaXTwitter
    ensures p == "FACEBOOK" <==> i == FaFacebook
    ensures p == "LINKEDIN" <==> i == FaLinkedin
    ensures !KnownPlatform(p) ==> i == FaInstagram
  {
    if p == "INSTAGRAM" then FaInstagram
    else if p == "TWITTER" then FaXTwitter
    else if p == "FACEBOOK" then FaFacebook
    else if p == "LINKEDIN" then FaLinkedin
    else FaInstagram
  }

  /** The key each icon is stored under. */
  function IconKey(i: Icon): (p: string)
    ensures KnownPlatform(p)
  {
    match i
    case FaInstagram => "INSTAGRAM"
    case FaXTwitter => "TWITTER"
    case FaFacebook => "FACEBOOK"
    case FaLinkedin => "LINKEDIN"
  }

  /** Every icon is found under its own key, so no entry of the record is shadowed. */
  lemma IconKeyFound(i: Icon)
    ensures PlatformIcon(IconKey(i)) == i
  {
  }

  /** A known name is the key of the icon it finds. */
  lemma KnownPlatformKey(p: string)
    requires KnownPlatform(p)
    ensures IconKey(PlatformIcon(p)) == p
  {
  }
}
