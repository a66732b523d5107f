/** The edit form's image widget: the dropzone's file filter, and the URL
    list it keeps and reports to the form after an upload or a removal.
    The uploads are a parameter: their URLs, or their failure, arrive as an
    argument. */
module ImageManager {
  import opened Wrappers
  import Seqs

  const MaxFiles: nat := 5
  const Uploaded := "Images uploaded successfully!"
  const UploadFailed := "Image upload failed. Please try again."

  /** A dropped file, by name and MIME type. */
  datatype DroppedFile = DroppedFile(name: string, mimeType: string)

  /** The dropzone's `accept` filter: any MIME type under `image/`. */
  predicate IsImage(f: DroppedFile)
  {
    "image/" <= f.mimeType
  }

  /** The dropped files the type filter lets through, in order. */
  function ImageFiles(files: seq<DroppedFile>): (r: seq<DroppedFile>)
    ensures |r| <= |files|
    ensures forall k :: 0 <= k < |r| ==> r[k] in files && IsImage(r[k])
    ensures forall k :: 0 <= k < |files| && IsImage(files[k]) ==> files[k] in r
  {
    if files == [] then [] else (if IsImage(files[0]) then [files[0]] else []) + ImageFiles(files[1..])
  }

  /** `acceptedFiles`: with more than `maxFiles` images the dropzone rejects them all. */
  function Accepted(files: seq<DroppedFile>): (r: seq<DroppedFile>)
    ensures |r| <= MaxFiles
    ensures forall k :: 0 <= k < |r| ==> r[k] in files && IsImage(r[k])
    ensures |ImageFiles(files)| <= MaxFiles ==> r == ImageFiles(files)
    ensures |ImageFiles(files)| > MaxFiles ==> r == []
  {
    var images := ImageFiles(files);
    if |images| > MaxFiles then [] else images
  }

  /** Dropping only images, at most five of them, accepts them all in order. */
  lemma {:induction false} FewImagesAllAccepted(files: seq<DroppedFile>)
    requires |files| <= MaxFiles && forall k :: 0 <= k < |files| ==> IsImage(files[k])
    ensures Accepted(files) == files
  {
    AllImagesKept(files);
  }

  lemma {:induction false} AllImagesKept(files: seq<DroppedFile>)
    requires forall k :: 0 <= k < |files| ==> IsImage(files[k])
    ensures ImageFiles(files) == files
  {
    if files != [] {
      AllImagesKept(files[1..]);
      assert files == [files[0]] + files[1..];
    }
  }

  class Manager {
    var imageUrls: seq<string>
    var isUploading: bool

    constructor(initialImages: seq<string>)
      ensures imageUrls == initialImages && !isUploading
    {
      imageUrls := initialImages;
      isUploading := false;
    }

    /** `onDrop`: `uploaded` holds one URL per accepted file, or `None` when
        the signature or an upload fails. The list the parent is given, if
        any, and the final toast are returned. */
    method OnDrop(accepted: seq<DroppedFile>, uploaded: Option<seq<string>>) returns (notified: Option<seq<string>>, toast: string)
      requires uploaded.Some? ==> |uploaded.value| == |accepted|
      modifies this
      ensures !isUploading
      ensures uploaded.Some? ==> imageUrls == old(imageUrls) + uploaded.value && notified == Some(imageUrls) && toast == Uploaded
      ensures uploaded.None? ==> imageUrls == old(imageUrls) && notified == None && toast == UploadFailed
    {
      isUploading := true;
      if uploaded.Some? {
        var finalUrls := imageUrls + uploaded.value;
        imageUrls := finalUrls;
        notified := Some(finalUrls);
        toast := Uploaded;
      } else {
        notified := None;
        toast := UploadFailed;
      }
      isUploading := false;
    }

    /** `removeImage`: every copy of the URL goes, and the parent is given the new list. */
    method RemoveImage(url: string) returns (notified: seq<string>)
      modifies this
      ensures imageUrls == Seqs.Without(old(imageUrls), url) && notified == imageUrls
      ensures isUploading == old(isUploading)
    {
      imageUrls := Seqs.Without(imageUrls, url);
      notified := imageUrls;
    }
  }
}
