/** `POST /api/v1/upload`: Multer accepts up to five files under the field
    `petImages`, and the handler answers with one public URL per stored file.
    Storing the files and naming them is Multer's and is a parameter here:
    each file arrives with the name it was stored under. */
module UploadRouter {
  import opened Wrappers
  import opened Http
  import App

  const Field := "petImages"
  const MaxFiles: nat := 5
  const UrlPrefix := "/images/pets/"
  const NoFiles := "No files were uploaded."
  const Uploaded := "Files uploaded successfully."

  /** One part of the multipart body: its field name and its stored file name. */
  datatype UploadFile = UploadFile(field: string, filename: string)

  datatype UploadBody = UploadBody(message: string, urls: seq<string>)

  /** The public URL of a stored file: the `public` directory is served at the root. */
  function UrlOf(filename: string): string
  {
    UrlPrefix + filename
  }

  function Urls(files: seq<UploadFile>): (urls: seq<string>)
    ensures |urls| == |files|
    ensures forall k :: 0 <= k < |files| ==> urls[k] == UrlOf(files[k].filename)
  {
    seq(|files|, k requires 0 <= k < |files| => UrlOf(files[k].filename))
  }

  /** `upload.array('petImages', 5)` lets the request through. */
  predicate MulterAccepts(files: seq<UploadFile>)
  {
    |files| <= MaxFiles && forall k :: 0 <= k < |files| ==> files[k].field == Field
  }

  /** The route: Multer's refusal goes to the global error handler; an
      absent or empty file list is 400; otherwise 201 with the URLs.
      `files` is `None` when the request is not multipart. */
  function Upload(files: Option<seq<UploadFile>>): (r: Reply<UploadBody>)
    ensures files.Some? && !MulterAccepts(files.value) ==> r == App.ErrorHandler("multer")
    ensures files.None? || files.value == [] ==> r == Respond(400, NoFiles)
    ensures r.status == 201 <==> files.Some? && files.value != [] && MulterAccepts(files.value)
    ensures r.status == 201 ==> r.body == Data(UploadBody(Uploaded, Urls(files.value)))
  {
    if files.Some? && !MulterAccepts(files.value) then App.ErrorHandler("multer")
    else if files.None? || files.value == [] then Respond(400, NoFiles)
    else Send(201, UploadBody(Uploaded, Urls(files.value)))
  }

  /** Each URL gives back the stored name of the file at the same position. */
  lemma UrlsRoundTrip(files: seq<UploadFile>)
    ensures forall k :: 0 <= k < |files| ==> Urls(files)[k][|UrlPrefix|..] == files[k].filename
    ensures forall k :: 0 <= k < |files| ==> UrlPrefix <= Urls(files)[k]
  {
    forall k | 0 <= k < |files|
      ensures Urls(files)[k][|UrlPrefix|..] == files[k].filename && UrlPrefix <= Urls(files)[k]
    {
      assert Urls(files)[k] == UrlPrefix + files[k].filename;
    }
  }

  /** Files stored under different names get different URLs. */
  lemma UrlsDistinct(files: seq<UploadFile>)
    requires forall i, j :: 0 <= i < j < |files| ==> files[i].filename != files[j].filename
    ensures forall i, j :: 0 <= i < j < |files| ==> Urls(files)[i] != Urls(files)[j]
  {
    UrlsRoundTrip(files);
  }
}
