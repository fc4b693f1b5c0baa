/** src/lib/api.ts: the thin API client. Requests are built from a
    normalised base address and a path; a response becomes the decoded value
    or a thrown `Error` whose message carries the HTTP status. Transport,
    `res.text()` and `res.json()` are the settled `Outcome`s handed in. The
    module also holds the two-step profile-photo upload. */
module Api {
  import opened Js
  import opened Types
  import Strings
  import Decimal

  const ContentTypeHeader := "Content-Type"
  const JsonContentType := "application/json"

  // ---------------------------------------------------------------------------
  // Base address, request URL, headers
  // ---------------------------------------------------------------------------

  /** `API_BASE`: `(NEXT_PUBLIC_API_BASE_URL ?? "")` with every trailing `/`
      removed. */
  function ApiBase(env: Option<string>): (r: string)
    ensures !Strings.EndsWith(r, "/")
    ensures var raw := if env.Some? then env.value else "";
      Strings.StartsWith(raw, r) && forall i :: |r| <= i < |raw| ==> raw[i] == '/'
  {
    Strings.StripTrailing(if env.Some? then env.value else "", '/')
  }

  /** The URL `apiFetch` requests: the base, then the path, with a `/`
      inserted only when the path does not start with one. */
  function RequestUrl(base: string, path: string): (url: string)
    ensures Strings.StartsWith(url, base)
    ensures Strings.StartsWith(url[|base|..], "/")
    ensures Strings.EndsWith(url, path)
    ensures |url| == |base| + |path| + (if Strings.StartsWith(path, "/") then 0 else 1)
  {
    base + (if Strings.StartsWith(path, "/") then path else "/" + path)
  }

  /** A normalised base joined to a path that starts with a single `/` has
      exactly one `/` at the join. */
  lemma OneSlashAtJoin(env: Option<string>, path: string)
    requires Strings.StartsWith(path, "/") && (|path| == 1 || path[1] != '/')
    ensures var base := ApiBase(env); var url := RequestUrl(base, path);
      url[|base|] == '/' && (|base| == 0 || url[|base| - 1] != '/')
      && (|url| == |base| + 1 || url[|base| + 1] != '/')
  {
    var base := ApiBase(env);
    var url := RequestUrl(base, path);
    assert url == base + path;
    assert url[|base|] == path[0] == '/';
    if |base| > 0 {
      assert url[|base| - 1] == base[|base| - 1];
      assert base[|base| - 1] != '/' by {
        assert base[|base| - 1..] == [base[|base| - 1]];
      }
    }
    if |url| != |base| + 1 {
      assert url[|base| + 1] == path[1];
    }
  }

  /** The headers sent: `Content-Type: application/json`, then the caller's
      headers spread over it, so a caller's `Content-Type` wins. */
  function MergeHeaders(custom: map<string, string>): (h: map<string, string>)
    ensures h.Keys == custom.Keys + {ContentTypeHeader}
    ensures forall k :: k in custom ==> h[k] == custom[k]
    ensures ContentTypeHeader !in custom ==> h[ContentTypeHeader] == JsonContentType
  {
    map[ContentTypeHeader := JsonContentType] + custom
  }

  // ---------------------------------------------------------------------------
  // Endpoints
  // ---------------------------------------------------------------------------

  datatype LoginData = LoginData(username: string, password: string)
  datatype RegisterData = RegisterData(
    username: string, nombreCompleto: string, password: string, fotoPerfilKey: Option<string>)
  datatype PurchaseData = PurchaseData(username: string, idObra: int)
  datatype UpdateProfileData = UpdateProfileData(
    username: string, passwordConfirm: string, usernameNuevo: Option<string>,
    nombreCompleto: Option<string>, fotoPerfilKey: Option<string>)
  datatype TopupData = TopupData(username: string, monto: real)
  datatype PresignData = PresignData(folder: string, filename: string, contentType: string)

  /** One call of the backend API with its request payload. */
  datatype Call =
    | Login(login: LoginData)
    | Register(register: RegisterData)
    | GetGallery
    | GetPurchased(purchasedBy: string)
    | Purchase(purchase: PurchaseData)
    | GetProfile(profileOf: string)
    | UpdateProfile(update: UpdateProfileData)
    | Topup(topup: TopupData)
    | Presign(presign: PresignData)

  /** The path of each endpoint; usernames in query strings go through
      `encodeURIComponent`, the parameter `encode`. */
  function Path(encode: string -> string, call: Call): (p: string)
    ensures Strings.StartsWith(p, "/")
    ensures call.GetPurchased? ==> Strings.EndsWith(p, "?username=" + encode(call.purchasedBy))
    ensures call.GetProfile? ==> Strings.EndsWith(p, "?username=" + encode(call.profileOf))
    ensures '?' in p ==> call.GetPurchased? || call.GetProfile?
    ensures call.Login? ==> p == "/auth/login"
    ensures call.Register? ==> p == "/auth/register"
    ensures call.GetGallery? ==> p == "/gallery"
    ensures call.GetPurchased? ==> p == "/profile/purchased?username=" + encode(call.purchasedBy)
    ensures call.Purchase? ==> p == "/purchase"
    ensures call.GetProfile? ==> p == "/profile/me?username=" + encode(call.profileOf)
    ensures call.UpdateProfile? ==> p == "/profile"
    ensures call.Topup? ==> p == "/profile/topup"
    ensures call.Presign? ==> p == "/s3/presign"
  {
    match call
    case Login(_) => "/auth/login"
    case Register(_) => "/auth/register"
    case GetGallery => "/gallery"
    case GetPurchased(u) => "/profile/purchased?username=" + encode(u)
    case Purchase(_) => "/purchase"
    case GetProfile(u) => "/profile/me?username=" + encode(u)
    case UpdateProfile(_) => "/profile"
    case Topup(_) => "/profile/topup"
    case Presign(_) => "/s3/presign"
  }

  /** Two calls are of the same endpoint. */
  predicate SameEndpoint(a: Call, b: Call)
  {
    match a
    case Login(_) => b.Login?
    case Register(_) => b.Register?
    case GetGallery => b.GetGallery?
    case GetPurchased(_) => b.GetPurchased?
    case Purchase(_) => b.Purchase?
    case GetProfile(_) => b.GetProfile?
    case UpdateProfile(_) => b.UpdateProfile?
    case Topup(_) => b.Topup?
    case Presign(_) => b.Presign?
  }

  /** No two endpoints share a path: the path alone tells which endpoint a
      request is for, whatever the usernames in the queries. */
  lemma PathDeterminesEndpoint(encode: string -> string, a: Call, b: Call)
    ensures Path(encode, a) == Path(encode, b) ==> SameEndpoint(a, b)
  {
    var pa, pb := Path(encode, a), Path(encode, b);
    if !SameEndpoint(a, b) {
      if (a.GetPurchased? && b.GetProfile?) || (a.GetProfile? && b.GetPurchased?) {
        assert pa[9] != pb[9];
      } else if a.GetPurchased? || b.GetPurchased? {
        var (r, o) := if a.GetPurchased? then (pa, pb) else (pb, pa);
        assert r[18] == '?' && '?' !in o;
      } else if a.GetProfile? || b.GetProfile? {
        var (r, o) := if a.GetProfile? then (pa, pb) else (pb, pa);
        assert r[11] == '?' && '?' !in o;
      }
    }
  }

  /** The HTTP method; the three reads use `fetch`'s default, GET. */
  function Method(call: Call): (m: string)
    ensures m == "GET" <==> call.GetGallery? || call.GetPurchased? || call.GetProfile?
    ensures m == "PUT" <==> call.UpdateProfile?
    ensures m != "GET" && m != "PUT" ==> m == "POST"
  {
    match call
    case GetGallery => "GET"
    case GetPurchased(_) => "GET"
    case GetProfile(_) => "GET"
    case UpdateProfile(_) => "PUT"
    case _ => "POST"
  }

  datatype Request = Request(verb: string, url: string, headers: map<string, string>)

  /** The request `apiFetch` issues for a call (no endpoint passes headers). */
  function BuildRequest(base: string, encode: string -> string, call: Call): (req: Request)
    ensures req.url == base + Path(encode, call)
    ensures req.headers == map[ContentTypeHeader := JsonContentType]
    ensures req.verb == Method(call)
    ensures req.verb == "GET" <==> call.GetGallery? || call.GetPurchased? || call.GetProfile?
    ensures req.verb == "PUT" <==> call.UpdateProfile?
  {
    Request(Method(call), RequestUrl(base, Path(encode, call)), MergeHeaders(map[]))
  }

  // ---------------------------------------------------------------------------
  // Responses and the error rule
  // ---------------------------------------------------------------------------

  /** A received response: status line, the settled `res.text()` and the
      settled `res.json()` (its `Err` is the decode failure). */
  datatype HttpResponse<T> = HttpResponse(
    status: nat, statusText: string, text: Outcome<string>, json: Outcome<T>)

  /** `res.ok`. */
  predicate IsOk(status: nat)
  {
    200 <= status <= 299
  }

  /** `await res.text().catch(() => "")`: a failed read is the empty body. */
  function BodyText(text: Outcome<string>): string
  {
    match text
    case Ok(t) => t
    case Err(_) => ""
  }

  /** The shape of an error message, over any digits, status text and tail. */
  lemma MessageShape(d: string, statusText: string, tail: string)
    ensures var m := "HTTP " + (d + (" " + statusText + tail));
      && Strings.StartsWith(m, "HTTP " + d + " " + statusText)
      && |m| == 6 + |d| + |statusText| + |tail|
      && Strings.EndsWith(m, tail)
  {
    var m := "HTTP " + (d + (" " + statusText + tail));
    var head := "HTTP " + d + " " + statusText;
    assert m == head + tail;
    Strings.ConcatStartsEnds(head, tail);
  }

  /** The message of the `Error` thrown for a non-ok response:
      "HTTP <status> <statusText>", then " – <body>" only for a non-empty body. */
  function HttpErrorMessage(status: nat, statusText: string, body: string): (m: string)
    ensures Strings.StartsWith(m, "HTTP " + Decimal.NatToDecimal(status) + " " + statusText)
    ensures body == "" ==> |m| == 6 + |Decimal.NatToDecimal(status)| + |statusText|
    ensures body != "" ==> Strings.EndsWith(m, " – " + body)
    ensures |m| == 6 + |Decimal.NatToDecimal(status)| + |statusText| + (if body != "" then 3 + |body| else 0)
  {
    var tail := if body != "" then " – " + body else "";
    MessageShape(Decimal.NatToDecimal(status), statusText, tail);
    "HTTP " + (Decimal.NatToDecimal(status) + (" " + statusText + tail))
  }

  /** Reads the status code back out of an error message. */
  function StatusOfMessage(m: string): Option<nat>
  {
    if Strings.StartsWith(m, "HTTP ") then Some(Decimal.ParseDecimal(Decimal.TakeDigits(m[5..])))
    else None
  }

  /** A message made of `HTTP `, a rendered number and a tail that does not
      start with a digit carries that number. */
  lemma StatusOfRendered(n: nat, rest: string)
    requires rest == [] || !Decimal.IsDigit(rest[0])
    ensures StatusOfMessage("HTTP " + (Decimal.NatToDecimal(n) + rest)) == Some(n)
  {
    var m := "HTTP " + (Decimal.NatToDecimal(n) + rest);
    assert m[..5] == "HTTP ";
    assert m[5..] == Decimal.NatToDecimal(n) + rest;
    Decimal.RecoverRendered(n, rest);
  }

  /** The status code is recoverable from every HTTP error message. */
  lemma HttpErrorCarriesStatus(status: nat, statusText: string, body: string)
    ensures StatusOfMessage(HttpErrorMessage(status, statusText, body)) == Some(status)
  {
    var rest := " " + statusText + (if body != "" then " – " + body else "");
    assert rest[0] == ' ';
    StatusOfRendered(status, rest);
  }

  /** `apiFetch(path, options)` once the request has settled: a transport
      failure propagates, a non-ok status throws the HTTP error, and an ok
      response yields the decoded body (or its decode failure). */
  function ApiFetch<T>(fetched: Outcome<HttpResponse<T>>): (r: Outcome<T>)
    ensures fetched.Err? ==> r == Err(fetched.thrown)
    ensures fetched.Ok? && IsOk(fetched.value.status) ==> r == fetched.value.json
    ensures fetched.Ok? && !IsOk(fetched.value.status) ==>
      r == Err(ErrorObject(HttpErrorMessage(
        fetched.value.status, fetched.value.statusText, BodyText(fetched.value.text))))
  {
    match fetched
    case Err(t) => Err(t)
    case Ok(res) =>
      if !IsOk(res.status) then
        Err(ErrorObject(HttpErrorMessage(res.status, res.statusText, BodyText(res.text))))
      else res.json
  }

  /** A non-ok response never yields a value, and the thrown message names
      its status. */
  lemma ErrorStatusNeverSucceeds<T>(res: HttpResponse<T>)
    requires !IsOk(res.status)
    ensures ApiFetch(Ok(res)).Err?
    ensures ApiFetch(Ok(res)).thrown.ErrorObject?
    ensures StatusOfMessage(ApiFetch(Ok(res)).thrown.message) == Some(res.status)
  {
    HttpErrorCarriesStatus(res.status, res.statusText, BodyText(res.text));
  }

  // ---------------------------------------------------------------------------
  // Profile-photo upload
  // ---------------------------------------------------------------------------

  const UploadFolder := "profiles"
  const FallbackExtension := "jpg"
  const FilenamePrefix := "profile_"

  /** `file.name.split('.').pop() || 'jpg'`: the text after the last `.`; a
      name without `.` is its own extension; only an empty result falls back. */
  function FileExtension(name: string): (ext: string)
    ensures ext != "" && '.' !in ext
    ensures '.' !in name && name != "" ==> ext == name
    ensures Strings.EndsWith(name, ".") || name == "" ==> ext == FallbackExtension
    ensures name != "" && !Strings.EndsWith(name, ".") ==>
      Strings.EndsWith(name, ext) && (|ext| == |name| || name[|name| - |ext| - 1] == '.')
  {
    StringOr(Strings.LastSegment(name, '.'), FallbackExtension)
  }

  /** What follows the timestamp in a generated name. */
  function FilenameTail(token: string, ext: string): (t: string)
    ensures t != [] && !Decimal.IsDigit(t[0])
  {
    "_" + token + "." + ext
  }

  /** The shape of a generated name, over any prefix, digits, token and
      extension. */
  lemma FilenameShape(prefix: string, d: string, token: string, ext: string)
    ensures var f := prefix + (d + ("_" + token + "." + ext));
      Strings.StartsWith(f, prefix + d + "_" + token + ".") && Strings.EndsWith(f, "." + ext)
  {
    var f := prefix + (d + ("_" + token + "." + ext));
    var head := prefix + d + "_" + token;
    assert f == head + ("." + ext);
    assert f == (head + ".") + ext;
    Strings.ConcatStartsEnds(head + ".", ext);
    Strings.ConcatStartsEnds(head, "." + ext);
  }

  /** `profile_<timestamp>_<random>.<extension>`; the timestamp (`Date.now()`)
      and the random token are parameters. */
  function UploadFilename(timestamp: nat, token: string, name: string): (f: string)
    ensures Strings.StartsWith(f, FilenamePrefix + Decimal.NatToDecimal(timestamp) + "_" + token + ".")
    ensures Strings.EndsWith(f, "." + FileExtension(name))
    ensures |f| == |FilenamePrefix| + |Decimal.NatToDecimal(timestamp)| + 1 + |token| + 1 + |FileExtension(name)|
  {
    FilenameShape(FilenamePrefix, Decimal.NatToDecimal(timestamp), token, FileExtension(name));
    FilenamePrefix + (Decimal.NatToDecimal(timestamp) + FilenameTail(token, FileExtension(name)))
  }

  /** Reads the timestamp back out of a generated filename. */
  function TimestampOf(f: string): nat
  {
    if |f| < |FilenamePrefix| then 0 else Decimal.ParseDecimal(Decimal.TakeDigits(f[|FilenamePrefix|..]))
  }

  /** A name made of the prefix, a rendered number and a tail that does not
      start with a digit carries that number. */
  lemma TimestampOfRendered(t: nat, rest: string)
    requires rest == [] || !Decimal.IsDigit(rest[0])
    ensures TimestampOf(FilenamePrefix + (Decimal.NatToDecimal(t) + rest)) == t
  {
    var f := FilenamePrefix + (Decimal.NatToDecimal(t) + rest);
    assert f[|FilenamePrefix|..] == Decimal.NatToDecimal(t) + rest;
    Decimal.RecoverRendered(t, rest);
  }

  /** The timestamp is recoverable from every generated filename. */
  lemma FilenameCarriesTimestamp(timestamp: nat, token: string, name: string)
    ensures TimestampOf(UploadFilename(timestamp, token, name)) == timestamp
  {
    TimestampOfRendered(timestamp, FilenameTail(token, FileExtension(name)));
  }


  /** Uploads started at different times get different names, whatever the
      random tokens and original names. */
  lemma FilenamesDifferByTimestamp(t1: nat, r1: string, n1: string, t2: nat, r2: string, n2: string)
    requires t1 != t2
    ensures UploadFilename(t1, r1, n1) != UploadFilename(t2, r2, n2)
  {
    FilenameCarriesTimestamp(t1, r1, n1);
    FilenameCarriesTimestamp(t2, r2, n2);
  }

  datatype PresignResponse = PresignResponse(uploadUrl: string, key: string)
  datatype PutResponse = PutResponse(status: nat, statusText: string)
  /** The direct PUT of the file bytes to the pre-signed URL. */
  datatype PutRequest = PutRequest(url: string, contentType: string)

  /** `uploadFileToS3` once the PUT has settled: a non-ok status throws. */
  function UploadFileToS3(put: Outcome<PutResponse>): (r: Outcome<()>)
    ensures r.Ok? <==> put.Ok? && IsOk(put.value.status)
    ensures put.Err? ==> r == Err(put.thrown)
    ensures put.Ok? && !IsOk(put.value.status) ==>
      r == Err(ErrorObject("Error uploading file: " + Decimal.NatToDecimal(put.value.status)
                           + " " + put.value.statusText))
  {
    match put
    case Err(t) => Err(t)
    case Ok(res) =>
      if IsOk(res.status) then Ok(())
      else Err(ErrorObject("Error uploading file: " + Decimal.NatToDecimal(res.status) + " " + res.statusText))
  }

  /** What one run of `uploadProfileImage` did: the presign request it sent,
      the PUT it sent if any, and its result. */
  datatype UploadRun = UploadRun(presign: PresignData, put: Option<PutRequest>, result: Outcome<string>)

  /** `uploadProfileImage(file)`: ask for a pre-signed URL, PUT the file there,
      return the storage key. `presigned` is the settled presign call and
      `put` the settled PUT. */
  function UploadProfileImage(
    file: FileInfo, timestamp: nat, token: string,
    presigned: Outcome<PresignResponse>, put: Outcome<PutResponse>): (run: UploadRun)
    ensures run.presign == PresignData(UploadFolder, UploadFilename(timestamp, token, file.name), file.mimeType)
    ensures presigned.Err? ==> run.put == None && run.result == Err(presigned.thrown)
    ensures presigned.Ok? ==> run.put == Some(PutRequest(presigned.value.uploadUrl, file.mimeType))
    ensures run.result.Ok? <==> presigned.Ok? && put.Ok? && IsOk(put.value.status)
    ensures run.result.Ok? ==> run.result.value == presigned.value.key
    ensures presigned.Ok? && run.result.Err? ==> run.result.thrown == UploadFileToS3(put).thrown
  {
    var data := PresignData(UploadFolder, UploadFilename(timestamp, token, file.name), file.mimeType);
    match presigned
    case Err(t) => UploadRun(data, None, Err(t))
    case Ok(p) =>
      var putRequest := PutRequest(p.uploadUrl, file.mimeType);
      match UploadFileToS3(put)
      case Err(t) => UploadRun(data, Some(putRequest), Err(t))
      case Ok(_) => UploadRun(data, Some(putRequest), Ok(p.key))
  }

  /** A successful upload returns the storage key, never the upload URL
      (unless the server made them equal). */
  lemma UploadReturnsKey(file: FileInfo, timestamp: nat, token: string, p: PresignResponse, put: PutResponse)
    requires IsOk(put.status)
    ensures UploadProfileImage(file, timestamp, token, Ok(p), Ok(put)).result == Ok(p.key)
  {
  }
}
