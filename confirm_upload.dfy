// The upload confirmation endpoint (src/app/api/img/confirm-upload/route.js):
// it turns the `fileId` of a stored image into its public URL.

module ConfirmUpload {
  import opened Js

  /** `s.replace(/^\/+/, "")` */
  function StripLeadingSlashes(s: string): (r: string)
    ensures EndsWith(s, r)
    ensures |r| > 0 ==> r[0] != '/'
    ensures forall i :: 0 <= i < |s| - |r| ==> s[i] == '/'
    decreases |s|
  {
    if |s| > 0 && s[0] == '/' then StripLeadingSlashes(s[1..]) else s
  }

  /** `s.replace(/\/+$/, "")` */
  function StripTrailingSlashes(s: string): (r: string)
    ensures StartsWith(s, r)
    ensures |r| > 0 ==> r[|r| - 1] != '/'
    ensures forall i :: |r| <= i < |s| ==> s[i] == '/'
    decreases |s|
  {
    if |s| > 0 && s[|s| - 1] == '/' then StripTrailingSlashes(s[..|s| - 1]) else s
  }

  /** `fileId.replace(/^\/+|\/+$/g, "")`: every leading and every trailing "/" goes. */
  function NormalizePath(fileId: string): (r: string)
    ensures |r| > 0 ==> r[0] != '/' && r[|r| - 1] != '/'
  {
    StripTrailingSlashes(StripLeadingSlashes(fileId))
  }

  /** `.replace(/^uploads\//, "")`: at most one leading "uploads/" goes. */
  function DropUploadsPrefix(p: string): (r: string)
    ensures StartsWith(p, "uploads/") ==> r == p[8..]
    ensures !StartsWith(p, "uploads/") ==> r == p
  {
    if StartsWith(p, "uploads/") then p[8..] else p
  }

  /** The cleaned path of a `fileId`. */
  function CleanPath(fileId: string): (r: string)
    ensures |r| > 0 ==> r[|r| - 1] != '/'
  {
    DropUploadsPrefix(NormalizePath(fileId))
  }

  /** The request body: absent, not JSON, the JSON `null`, or some other JSON value with its `fileId` property. */
  datatype Body = NoBody | NotJson | JsonNull | Json(fileId: JsVal)

  datatype Response = Response(status: int, ok: bool, message: string, url: Option<string>)

  const Confirmed := "Upload confirmado com sucesso"
  const Failed := "Erro ao confirmar upload"

  /**
   * `POST`. Destructuring a `null` body and calling `replace` on a `fileId`
   * that is not a string throw, which the outer `catch` turns into a 500.
   */
  function Post(body: Body): (resp: Response)
    ensures body.NoBody? ==> resp == Response(400, false, "Nenhum dado enviado", None)
    ensures body.NotJson? ==> resp == Response(400, false, "Formato de dados inválido", None)
    ensures body.Json? && !Truthy(body.fileId) ==> resp == Response(400, false, "ID do arquivo não fornecido", None)
    ensures body.JsonNull? || (body.Json? && Truthy(body.fileId) && !body.fileId.Str?) ==> resp == Response(500, false, Failed, None)
    ensures resp.ok <==> body.Json? && Truthy(body.fileId) && body.fileId.Str?
    ensures resp.ok ==> resp.status == 200 && resp.url == Some("/uploads/" + CleanPath(body.fileId.s)) && resp.message == Confirmed
  {
    match body
    case NoBody => Response(400, false, "Nenhum dado enviado", None)
    case NotJson => Response(400, false, "Formato de dados inválido", None)
    case JsonNull => Response(500, false, Failed, None)
    case Json(fileId) =>
      if !Truthy(fileId) then Response(400, false, "ID do arquivo não fornecido", None)
      else if !fileId.Str? then Response(500, false, Failed, None)
      else Response(200, true, Confirmed, Some("/uploads/" + CleanPath(fileId.s)))
  }

  /** Normalising twice is normalising once. */
  lemma NormalizeIdempotent(fileId: string)
    ensures NormalizePath(NormalizePath(fileId)) == NormalizePath(fileId)
  {
    var n := NormalizePath(fileId);
    assert StripLeadingSlashes(n) == n;
    assert StripTrailingSlashes(n) == n;
  }

  /** Confirming a returned URL again gives the same URL, provided its cleaned path is not empty. */
  lemma {:induction false} ReconfirmStable(fileId: string)
    requires CleanPath(fileId) != ""
    ensures CleanPath("/uploads/" + CleanPath(fileId)) == CleanPath(fileId)
  {
    var c := CleanPath(fileId);
    var u := "/uploads/" + c;
    assert u[0] == '/' && u[1..] == "uploads/" + c;
    assert StripLeadingSlashes(u) == StripLeadingSlashes(u[1..]);
    assert StripLeadingSlashes(u[1..]) == u[1..];
    assert u[1..][|u[1..]| - 1] == c[|c| - 1];
    assert StripTrailingSlashes(u[1..]) == u[1..];
    assert (u[1..])[8..] == c;
  }

  /** With an empty cleaned path the returned URL is "/uploads/", which confirms to "/uploads/uploads". */
  lemma EmptyPathNotStable()
    ensures CleanPath("/uploads/") == "uploads"
  {
    var u := "/uploads/";
    assert StripLeadingSlashes(u) == StripLeadingSlashes(u[1..]);
    assert StripLeadingSlashes(u[1..]) == "uploads/";
    assert StripTrailingSlashes("uploads/") == StripTrailingSlashes("uploads/"[..7]);
    assert "uploads/"[..7] == "uploads";
    assert StripTrailingSlashes("uploads") == "uploads";
    assert !StartsWith("uploads", "uploads/");
  }
}
