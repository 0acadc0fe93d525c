/** The POST handler of the upload proxy: a two-step upload to fal.ai
    storage (initiate, then PUT the bytes to the presigned URL). The form,
    the FAL_API_KEY setting and both upstream replies are inputs; the result
    records which upstream calls were made, with what, and the response. */
module UploadRoute {
  import opened Web

  /** The `file` entry of the form: its name and content type. */
  datatype FileEntry = FileEntry(name: string, contentType: string)

  /** The initiate request: its Authorization header and JSON body. */
  datatype InitiateCall = InitiateCall(authorization: string, contentType: string, fileName: string)

  /** The parsed JSON of an ok initiate reply, and how JSON.stringify renders it. */
  datatype InitiateData = InitiateData(uploadUrl: Option<string>, fileUrl: Option<string>, rendered: string)

  /** An initiate reply: its status, its body text (read when not ok) and its
      parsed JSON (read when ok; parsing may throw). */
  datatype InitiateReply = InitiateReply(status: nat, text: string, data: Outcome<InitiateData>)

  /** The PUT of the file's bytes to the presigned URL. */
  datatype PutCall = PutCall(url: string, contentType: string)

  datatype PutReply = PutReply(status: nat, text: string)

  datatype Body = ErrorJson(error: string) | UrlJson(url: string)

  datatype Response = Response(status: nat, body: Body)

  datatype Exchange = Exchange(initiate: Option<InitiateCall>, put: Option<PutCall>, response: Response)

  const FailedPrefix := "Upload failed: "
  const InvalidDataPrefix := "fal.ai returned invalid data: "

  function Fail(status: nat, error: string): Response {
    Response(status, ErrorJson(error))
  }

  function Caught(e: Thrown): Response {
    Fail(500, FailedPrefix + ErrorMessage(e))
  }

  function InitiateFailedError(status: nat, text: string): string {
    "fal.ai initiate failed (" + Decimal(status) + "): " + text
  }

  function UploadFailedError(status: nat, text: string): string {
    "fal.ai upload failed (" + Decimal(status) + "): " + text
  }

  /** Both URLs are present in the initiate data. */
  predicate Complete(d: InitiateData) {
    Truthy(d.uploadUrl) && Truthy(d.fileUrl)
  }

  /** The initiate reply is ok, parses, and carries both URLs. */
  predicate Initiated(initiate: Outcome<InitiateReply>) {
    initiate.Returned? && IsOk(initiate.value.status) &&
    initiate.value.data.Returned? && Complete(initiate.value.data.value)
  }

  /** The PUT was made with an ok reply. */
  predicate Stored(put: Outcome<PutReply>) {
    put.Returned? && IsOk(put.value.status)
  }

  /** The steps after the API key check: initiate, then PUT. */
  function Transfer(file: FileEntry, apiKey: string, initiate: Outcome<InitiateReply>, put: Outcome<PutReply>): (x: Exchange)
    ensures x.initiate == Some(InitiateCall("Key " + apiKey, file.contentType, file.name))
    ensures x.put.Some? <==> Initiated(initiate)
    ensures x.put.Some? ==>
      x.put.value == PutCall(initiate.value.data.value.uploadUrl.value, file.contentType)
    ensures x.response.status == 200 <==> Initiated(initiate) && Stored(put)
    ensures x.response.status == 200 ==> x.response.body == UrlJson(initiate.value.data.value.fileUrl.value)
    ensures x.response.status != 200 ==> x.response.status == 500 && x.response.body.ErrorJson?
    ensures initiate.Threw? ==> x.response == Caught(initiate.thrown)
    ensures initiate.Returned? && !IsOk(initiate.value.status) ==>
      x.response == Fail(500, InitiateFailedError(initiate.value.status, initiate.value.text))
    ensures initiate.Returned? && IsOk(initiate.value.status) && initiate.value.data.Threw? ==>
      x.response == Caught(initiate.value.data.thrown)
    ensures (initiate.Returned? && IsOk(initiate.value.status) && initiate.value.data.Returned? &&
             !Complete(initiate.value.data.value)) ==>
      x.response == Fail(500, InvalidDataPrefix + initiate.value.data.value.rendered)
    ensures Initiated(initiate) && put.Threw? ==> x.response == Caught(put.thrown)
    ensures Initiated(initiate) && put.Returned? && !IsOk(put.value.status) ==>
      x.response == Fail(500, UploadFailedError(put.value.status, put.value.text))
  {
    var call := InitiateCall("Key " + apiKey, file.contentType, file.name);
    match initiate
    case Threw(e) => Exchange(Some(call), None, Caught(e))
    case Returned(r) =>
      if !IsOk(r.status) then Exchange(Some(call), None, Fail(500, InitiateFailedError(r.status, r.text)))
      else match r.data
        case Threw(e) => Exchange(Some(call), None, Caught(e))
        case Returned(d) =>
          if !Truthy(d.uploadUrl) || !Truthy(d.fileUrl) then
            Exchange(Some(call), None, Fail(500, InvalidDataPrefix + d.rendered))
          else
            var putCall := PutCall(d.uploadUrl.value, file.contentType);
            match put
            case Threw(e) => Exchange(Some(call), Some(putCall), Caught(e))
            case Returned(p) =>
              if !IsOk(p.status) then Exchange(Some(call), Some(putCall), Fail(500, UploadFailedError(p.status, p.text)))
              else Exchange(Some(call), Some(putCall), Response(200, UrlJson(d.fileUrl.value)))
  }

  /** POST /api/upload. `form` is the `file` entry of the form data (or what
      reading the form threw), `apiKey` the FAL_API_KEY setting, `initiate`
      and `put` what the two upstream calls answer if they are made. */
  function Post(form: Outcome<Option<FileEntry>>, apiKey: Option<string>, initiate: Outcome<InitiateReply>, put: Outcome<PutReply>): (x: Exchange)
    ensures form.Threw? ==> x == Exchange(None, None, Caught(form.thrown))
    ensures form == Returned(None) ==> x == Exchange(None, None, Fail(400, "No file provided"))
    ensures form.Returned? && form.value.Some? && !Truthy(apiKey) ==>
      x == Exchange(None, None, Fail(500, "FAL_API_KEY not configured on server"))
    ensures x.initiate.Some? <==> form.Returned? && form.value.Some? && Truthy(apiKey)
    ensures x.put.Some? ==> x.initiate.Some?
    ensures x.initiate.Some? ==> x == Transfer(form.value.value, apiKey.value, initiate, put)
    ensures x.response.status == 400 <==> form == Returned(None)
    ensures x.response.status == 200 <==> x.initiate.Some? && Initiated(initiate) && Stored(put)
    ensures x.response.status in {200, 400, 500}
  {
    match form
    case Threw(e) => Exchange(None, None, Caught(e))
    case Returned(file) =>
      if file.None? then Exchange(None, None, Fail(400, "No file provided"))
      else if !Truthy(apiKey) then Exchange(None, None, Fail(500, "FAL_API_KEY not configured on server"))
      else Transfer(file.value, apiKey.value, initiate, put)
  }

  /** Every thrown error that reaches the outer catch answers 500 with an
      error that starts with "Upload failed: ". */
  lemma CaughtErrorsArePrefixed(form: Outcome<Option<FileEntry>>, apiKey: Option<string>,
                                initiate: Outcome<InitiateReply>, put: Outcome<PutReply>)
    requires form.Threw? ||
      (form.Returned? && form.value.Some? && Truthy(apiKey) &&
       (initiate.Threw? ||
        (IsOk(initiate.value.status) && initiate.value.data.Threw?) ||
        (Initiated(initiate) && put.Threw?)))
    ensures var r := Post(form, apiKey, initiate, put).response;
      r.status == 500 && r.body.ErrorJson? && FailedPrefix <= r.body.error
  {
  }
}
