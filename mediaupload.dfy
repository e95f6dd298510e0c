/**
 * The media upload field (src/components/ui/media-upload.tsx): admission of a batch of
 * files, the queue of images waiting to be cropped, the uploads it issues and the list of
 * media ids it keeps.
 */
module MediaUpload {
  import opened Wrappers
  import opened Strings
  import opened IdLists

  /** A browser `File`, as far as the component looks at it. */
  datatype File = File(name: string, size: int, mimeType: string)

  /** An image waiting for the cropper: its data URL and the file. */
  datatype QueuedImage = QueuedImage(src: string, file: File)

  /** An uploaded media record (`UploadedFileType`), as far as the component looks at it. */
  datatype Uploaded = Uploaded(id: string, mimeType: string, url: string)

  /** 8 MB. */
  const MAX_FILE_SIZE: int := 8 * 1024 * 1024

  /** `maxFiles || 5` on the prop, whose own default is 5. */
  function MaxFiles(maxFiles: Option<int>): (m: int)
    ensures m != 0
    ensures maxFiles.None? ==> m == 5
    ensures maxFiles.Some? && maxFiles.value != 0 ==> m == maxFiles.value
    ensures maxFiles == Some(0) ==> m == 5
  {
    if maxFiles.Some? && maxFiles.value != 0 then maxFiles.value else 5
  }

  predicate Oversized(f: File) {
    f.size > MAX_FILE_SIZE
  }

  predicate IsImage(f: File) {
    StartsWith(f.mimeType, "image/")
  }

  /** The files of a batch that go to the cropper, in order. */
  function Images(files: seq<File>): seq<File>
    decreases |files|
  {
    if files == [] then []
    else
      var f := files[|files| - 1];
      Images(files[..|files| - 1]) + (if !Oversized(f) && IsImage(f) then [f] else [])
  }

  /** The files of a batch that are uploaded as they are, in order. */
  function Others(files: seq<File>): seq<File>
    decreases |files|
  {
    if files == [] then []
    else
      var f := files[|files| - 1];
      Others(files[..|files| - 1]) + (if !Oversized(f) && !IsImage(f) then [f] else [])
  }

  /** The files of a batch that are skipped for their size. */
  function Skipped(files: seq<File>): seq<File>
    decreases |files|
  {
    if files == [] then []
    else
      var f := files[|files| - 1];
      Skipped(files[..|files| - 1]) + (if Oversized(f) then [f] else [])
  }

  /** The queue entries for a list of images, each with the data URL `read` gives it. */
  function Queue(images: seq<File>, read: File -> string): (q: seq<QueuedImage>)
    ensures |q| == |images|
    ensures forall i :: 0 <= i < |q| ==> q[i] == QueuedImage(read(images[i]), images[i])
  {
    seq(|images|, i requires 0 <= i < |images| => QueuedImage(read(images[i]), images[i]))
  }

  /** The batch splits without loss: every file is skipped, queued or kept as it is. */
  lemma {:induction false} PartitionComplete(files: seq<File>)
    ensures multiset(Images(files)) + multiset(Others(files)) + multiset(Skipped(files)) == multiset(files)
    decreases |files|
  {
    if files != [] {
      var init := files[..|files| - 1];
      PartitionComplete(init);
      assert files == init + [files[|files| - 1]];
    }
  }

  /** What lands where: images of 8 MB or less go to the cropper, other files of 8 MB or
      less are kept as they are, larger files are skipped. */
  lemma {:induction false} PartitionMembers(files: seq<File>, f: File)
    ensures f in Images(files) <==> f in files && !Oversized(f) && IsImage(f)
    ensures f in Others(files) <==> f in files && !Oversized(f) && !IsImage(f)
    ensures f in Skipped(files) <==> f in files && Oversized(f)
    decreases |files|
  {
    if files != [] {
      var init := files[..|files| - 1];
      PartitionMembers(init, f);
      assert files == init + [files[|files| - 1]];
    }
  }

  /**
   * The `for` loop of `handleFileSelect`: skip oversized files, read each image for the
   * cropper, keep the other files, each list in the order of the batch.
   */
  method PartitionBatch(files: seq<File>, read: File -> string)
    returns (imagesToCrop: seq<QueuedImage>, otherFiles: seq<File>)
    ensures imagesToCrop == Queue(Images(files), read)
    ensures otherFiles == Others(files)
  {
    imagesToCrop := [];
    otherFiles := [];
    var i := 0;
    while i < |files|
      invariant 0 <= i <= |files|
      invariant imagesToCrop == Queue(Images(files[..i]), read)
      invariant otherFiles == Others(files[..i])
    {
      var file := files[i];
      assert files[..i + 1][..i] == files[..i];
      if file.size > MAX_FILE_SIZE {
        i := i + 1;
        continue;
      }
      if StartsWith(file.mimeType, "image/") {
        imagesToCrop := imagesToCrop + [QueuedImage(read(file), file)];
      } else {
        otherFiles := otherFiles + [file];
      }
      i := i + 1;
    }
    assert files[..|files|] == files;
  }

  /** The id of an uploaded record. */
  function UploadedId(u: Uploaded): string {
    u.id
  }

  /** `previews.filter(p => p.id !== id)` */
  function RemovePreview(previews: seq<Uploaded>, id: string): seq<Uploaded>
    decreases |previews|
  {
    if previews == [] then []
    else (if previews[0].id == id then [] else [previews[0]]) + RemovePreview(previews[1..], id)
  }

  /** Deleting a preview and deleting its id agree: the previews' ids after a delete are
      the ids before it with that id removed. */
  lemma {:induction false} RemovePreviewIds(previews: seq<Uploaded>, id: string)
    ensures Ids(RemovePreview(previews, id), UploadedId) == Remove(Ids(previews, UploadedId), id)
    decreases |previews|
  {
    if previews != [] {
      var h := if previews[0].id == id then [] else [previews[0]];
      var t := RemovePreview(previews[1..], id);
      RemovePreviewIds(previews[1..], id);
      assert Ids(previews, UploadedId) == [previews[0].id] + Ids(previews[1..], UploadedId);
      RemoveCons(previews[0].id, Ids(previews[1..], UploadedId), id);
      assert Ids(h + t, UploadedId) == Ids(h, UploadedId) + Ids(t, UploadedId);
    }
  }

  /**
   * The component's state: the media ids it reports through `onChange` (held here, with
   * `onChange` as assignment), the previews, and the crop queue with its index and the
   * files waiting to be uploaded with the cropped images.
   */
  class MediaUploader {
    var value: seq<string>
    var previews: seq<Uploaded>
    var croppingQueue: seq<QueuedImage>
    var currentCroppingIndex: int
    var pendingFiles: seq<File>
    /** `MAX_FILES` */
    const maxFiles: int
    /** Whether an `onChange` prop was given. */
    const hasOnChange: bool

    /** The queue is idle, or its index points at the image being cropped. */
    predicate Valid()
      reads this
    {
      && 0 <= currentCroppingIndex
      && (croppingQueue == [] ==> currentCroppingIndex == 0 && pendingFiles == [])
      && (croppingQueue != [] ==> currentCroppingIndex < |croppingQueue|)
    }

    constructor(valueProp: Option<seq<string>>, maxFilesProp: Option<int>, onChangeGiven: bool)
      ensures Valid()
      ensures value == valueProp.GetOr([]) && maxFiles == MaxFiles(maxFilesProp)
      ensures hasOnChange == onChangeGiven
      ensures previews == [] && croppingQueue == [] && currentCroppingIndex == 0 && pendingFiles == []
    {
      value := valueProp.GetOr([]);
      maxFiles := MaxFiles(maxFilesProp);
      hasOnChange := onChangeGiven;
      previews := [];
      croppingQueue := [];
      currentCroppingIndex := 0;
      pendingFiles := [];
    }

    /** The upload picker shows while fewer than `MAX_FILES` ids are held. */
    function ShowPicker(): (b: bool)
      reads this
      ensures b <==> |value| < maxFiles
    {
      |value| < maxFiles
    }

    /** `croppingQueue[currentCroppingIndex]`, undefined outside the queue; the cropper is
        open exactly while it is defined. */
    function CroppingImage(): (r: Option<QueuedImage>)
      reads this
      requires Valid()
      ensures r.Some? <==> croppingQueue != []
      ensures r.Some? ==> r.value == croppingQueue[currentCroppingIndex]
    {
      if 0 <= currentCroppingIndex < |croppingQueue| then Some(croppingQueue[currentCroppingIndex]) else None
    }

    /**
     * `handleFileSelect`: an empty batch, or one that would take the ids past `MAX_FILES`,
     * changes nothing. Otherwise, if any image passes, the images start the crop queue and
     * the other files wait for them; if none does, the other files (if any) are uploaded at
     * once. The result is the upload issued, if any.
     */
    method HandleFileSelect(files: seq<File>, read: File -> string) returns (upload: Option<seq<File>>)
      requires Valid()
      modifies this
      ensures Valid()
      ensures value == old(value) && previews == old(previews)
      ensures (files == [] || |old(value)| + |files| > maxFiles) ==>
        upload.None? && croppingQueue == old(croppingQueue)
        && currentCroppingIndex == old(currentCroppingIndex) && pendingFiles == old(pendingFiles)
      ensures files != [] && |old(value)| + |files| <= maxFiles && Images(files) != [] ==>
        upload.None? && croppingQueue == Queue(Images(files), read)
        && currentCroppingIndex == 0 && pendingFiles == Others(files)
      ensures files != [] && |old(value)| + |files| <= maxFiles && Images(files) == [] ==>
        upload == (if Others(files) != [] then Some(Others(files)) else None)
        && croppingQueue == old(croppingQueue)
        && currentCroppingIndex == old(currentCroppingIndex) && pendingFiles == old(pendingFiles)
    {
      upload := None;
      if |files| == 0 {
        return;
      }
      if |value| + |files| > maxFiles {
        return;
      }
      var imagesToCrop, otherFiles := PartitionBatch(files, read);
      if |imagesToCrop| > 0 {
        pendingFiles := otherFiles;
        croppingQueue := imagesToCrop;
        currentCroppingIndex := 0;
      } else if |otherFiles| > 0 {
        upload := Some(otherFiles);
      }
    }

    /**
     * `handleCropComplete`: the cropped file joins the pending files; before the last image
     * the queue moves on, after it everything pending is uploaded and the queue resets.
     */
    method HandleCropComplete(croppedFile: File) returns (upload: Option<seq<File>>)
      requires Valid()
      modifies this
      ensures Valid()
      ensures value == old(value) && previews == old(previews)
      ensures old(currentCroppingIndex) + 1 < |old(croppingQueue)| ==>
        upload.None? && croppingQueue == old(croppingQueue)
        && currentCroppingIndex == old(currentCroppingIndex) + 1
        && pendingFiles == old(pendingFiles) + [croppedFile]
      ensures old(currentCroppingIndex) + 1 >= |old(croppingQueue)| ==>
        upload == Some(old(pendingFiles) + [croppedFile])
        && croppingQueue == [] && currentCroppingIndex == 0 && pendingFiles == []
    {
      var updatedPending := pendingFiles + [croppedFile];
      var nextIndex := currentCroppingIndex + 1;
      if nextIndex < |croppingQueue| {
        pendingFiles := updatedPending;
        currentCroppingIndex := nextIndex;
        upload := None;
      } else {
        upload := Some(updatedPending);
        ResetCroppingState();
      }
    }

    /**
     * `handleCropCancel`: the image is left out; before the last image the queue moves on,
     * after it the pending files are uploaded if there are any and the queue resets.
     */
    method HandleCropCancel() returns (upload: Option<seq<File>>)
      requires Valid()
      modifies this
      ensures Valid()
      ensures value == old(value) && previews == old(previews)
      ensures old(currentCroppingIndex) + 1 < |old(croppingQueue)| ==>
        upload.None? && croppingQueue == old(croppingQueue)
        && currentCroppingIndex == old(currentCroppingIndex) + 1 && pendingFiles == old(pendingFiles)
      ensures old(currentCroppingIndex) + 1 >= |old(croppingQueue)| ==>
        upload == (if old(pendingFiles) != [] then Some(old(pendingFiles)) else None)
        && croppingQueue == [] && currentCroppingIndex == 0 && pendingFiles == []
    {
      var nextIndex := currentCroppingIndex + 1;
      upload := None;
      if nextIndex < |croppingQueue| {
        currentCroppingIndex := nextIndex;
      } else {
        if |pendingFiles| > 0 {
          upload := Some(pendingFiles);
        }
        ResetCroppingState();
      }
    }

    /** `resetCroppingState` */
    method ResetCroppingState()
      modifies this
      ensures Valid()
      ensures croppingQueue == [] && currentCroppingIndex == 0 && pendingFiles == []
      ensures value == old(value) && previews == old(previews)
    {
      croppingQueue := [];
      currentCroppingIndex := 0;
      pendingFiles := [];
    }

    /** The upload's `onSuccess`: the new ids follow the old ones in response order, and the
        records join the previews. */
    method OnUploadSuccess(data: seq<Uploaded>)
      requires Valid()
      modifies this
      ensures Valid()
      ensures value == if hasOnChange then old(value) + Ids(data, UploadedId) else old(value)
      ensures previews == old(previews) + data
      ensures croppingQueue == old(croppingQueue) && currentCroppingIndex == old(currentCroppingIndex)
      ensures pendingFiles == old(pendingFiles)
    {
      var updatedValue := value + Ids(data, UploadedId);
      if hasOnChange {
        value := updatedValue;
      }
      previews := previews + data;
    }

    /** `handleDelete`, with `deleted` whether the service removed the media: only then do the
        id and its preview go, every copy of them, the rest keeping their order. */
    method HandleDelete(id: string, deleted: bool)
      requires Valid()
      modifies this
      ensures Valid()
      ensures value == if deleted && hasOnChange then Remove(old(value), id) else old(value)
      ensures previews == if deleted then RemovePreview(old(previews), id) else old(previews)
      ensures croppingQueue == old(croppingQueue) && currentCroppingIndex == old(currentCroppingIndex)
      ensures pendingFiles == old(pendingFiles)
    {
      if deleted {
        if hasOnChange {
          value := Remove(value, id);
        }
        previews := RemovePreview(previews, id);
      }
    }
  }

  /** Deleting an id that only the latest upload brought leaves the earlier ids as they were
      and removes it from the new ones alone. */
  lemma DeleteAfterUpload(earlier: seq<string>, data: seq<Uploaded>, id: string)
    requires id !in earlier
    ensures Remove(earlier + Ids(data, UploadedId), id) == earlier + Remove(Ids(data, UploadedId), id)
  {
    RemoveAppend(earlier, Ids(data, UploadedId), id);
    RemoveAbsent(earlier, id);
  }
}
