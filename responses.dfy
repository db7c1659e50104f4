/** The checks the scripts make on what the ERP sends back: the CSRF token
    scraped from the `/web` page, the content type of the report download,
    and the presence of `uid`, `report_name` and the wizard `id` in JSON-RPC
    responses (modelled over an abstract JSON value). */
module Responses {

  import opened Outcomes
  import opened Text

  // ---------------------------------------------------------------------
  // CSRF token: re.search(r'csrf_token\s*:\s*"([^"]+)"', r.text).group(1)
  // ---------------------------------------------------------------------

  const CsrfKey: string := "csrf_token"

  /** Python's `\s` on `str` patterns: the Unicode white-space characters. */
  predicate IsSpace(c: char)
  {
    var n := c as int;
    n == 0x20 || 0x09 <= n <= 0x0D || 0x1C <= n <= 0x1F || n == 0x85 || n == 0xA0 ||
    n == 0x1680 || 0x2000 <= n <= 0x200A || n == 0x2028 || n == 0x2029 ||
    n == 0x202F || n == 0x205F || n == 0x3000
  }

  predicate AllSpace(t: string, i: int, j: int)
    requires 0 <= i <= j <= |t|
  {
    forall k :: i <= k < j ==> IsSpace(t[k])
  }

  predicate NoQuote(t: string, i: int, j: int)
    requires 0 <= i <= j <= |t|
  {
    forall k :: i <= k < j ==> t[k] != '"'
  }

  /** The end of the run of white space starting at `i` (what a greedy `\s*` consumes). */
  function SkipSpaces(t: string, i: nat): (j: nat)
    requires i <= |t|
    ensures i <= j <= |t| && AllSpace(t, i, j)
    ensures j < |t| ==> !IsSpace(t[j])
    decreases |t| - i
  {
    if i < |t| && IsSpace(t[i]) then SkipSpaces(t, i + 1) else i
  }

  /** The first `"` at or after `i`, or |t| (what a greedy `[^"]*` stops at). */
  function NextQuote(t: string, i: nat): (j: nat)
    requires i <= |t|
    ensures i <= j <= |t| && NoQuote(t, i, j)
    ensures j < |t| ==> t[j] == '"'
    decreases |t| - i
  {
    if i < |t| && t[i] != '"' then NextQuote(t, i + 1) else i
  }

  /** The token the pattern captures when a match starts at position `p`. */
  function MatchAt(t: string, p: nat): (r: Option<string>)
    requires p <= |t|
    ensures r.Some? ==> 1 <= |r.value| && '"' !in r.value
  {
    if !(p + |CsrfKey| <= |t| && t[p..p + |CsrfKey|] == CsrfKey) then None
    else
      var j := SkipSpaces(t, p + |CsrfKey|);
      if j == |t| || t[j] != ':' then None
      else
        var k := SkipSpaces(t, j + 1);
        if k == |t| || t[k] != '"' then None
        else
          var e := NextQuote(t, k + 1);
          if e == |t| || e == k + 1 then None
          else Some(t[k + 1..e])
  }

  /** The shape the regular expression describes, with its parts located:
      `csrf_token` at p, white space up to the `:` at j, white space up to the
      opening quote at k, at least one non-quote character, the closing quote at e. */
  predicate Shape(t: string, p: int, j: int, k: int, e: int)
  {
    0 <= p && p + |CsrfKey| <= j < k < e - 1 && e < |t| &&
    t[p..p + |CsrfKey|] == CsrfKey &&
    AllSpace(t, p + |CsrfKey|, j) && t[j] == ':' &&
    AllSpace(t, j + 1, k) && t[k] == '"' &&
    NoQuote(t, k + 1, e) && t[e] == '"'
  }

  lemma {:induction false} SkipSpacesStopsAt(t: string, i: nat, j: nat)
    requires i <= j < |t| && AllSpace(t, i, j) && !IsSpace(t[j])
    ensures SkipSpaces(t, i) == j
    decreases j - i
  {
    if i < j {
      SkipSpacesStopsAt(t, i + 1, j);
    }
  }

  lemma {:induction false} NextQuoteStopsAt(t: string, i: nat, j: nat)
    requires i <= j < |t| && NoQuote(t, i, j) && t[j] == '"'
    ensures NextQuote(t, i) == j
    decreases j - i
  {
    if i < j {
      NextQuoteStopsAt(t, i + 1, j);
    }
  }

  /** A match at `p` is exactly the shape the pattern describes, and the
      captured group is the text between the quotes. */
  lemma MatchAtIff(t: string, p: nat)
    requires p <= |t|
    ensures MatchAt(t, p).Some? <==> exists j, k, e :: Shape(t, p, j, k, e)
    ensures forall j, k, e :: Shape(t, p, j, k, e) ==> MatchAt(t, p) == Some(t[k + 1..e])
  {
    forall j, k, e | Shape(t, p, j, k, e)
      ensures MatchAt(t, p) == Some(t[k + 1..e])
    {
      ShapeMatches(t, p, j, k, e);
    }
    if MatchAt(t, p).Some? {
      MatchHasShape(t, p);
    }
  }

  lemma ShapeMatches(t: string, p: nat, j: int, k: int, e: int)
    requires Shape(t, p, j, k, e)
    ensures MatchAt(t, p) == Some(t[k + 1..e])
  {
    SkipSpacesStopsAt(t, p + |CsrfKey|, j);
    SkipSpacesStopsAt(t, j + 1, k);
    NextQuoteStopsAt(t, k + 1, e);
  }

  lemma MatchHasShape(t: string, p: nat)
    requires p <= |t| && MatchAt(t, p).Some?
    ensures exists j, k, e :: Shape(t, p, j, k, e)
  {
    var j := SkipSpaces(t, p + |CsrfKey|);
    var k := SkipSpaces(t, j + 1);
    var e := NextQuote(t, k + 1);
    assert Shape(t, p, j, k, e);
  }

  /** `re.search` from position `p` on: the token of the leftmost match. */
  function SearchFrom(t: string, p: nat): Option<string>
    requires p <= |t|
    decreases |t| - p
  {
    var m := MatchAt(t, p);
    if m.Some? then m
    else if p == |t| then None
    else SearchFrom(t, p + 1)
  }

  /** No match at or after `p` gives None; otherwise the result is the match
      at the leftmost position that matches. */
  lemma SearchFromSpec(t: string, p: nat)
    requires p <= |t|
    ensures SearchFrom(t, p).None? ==> forall q :: p <= q <= |t| ==> MatchAt(t, q).None?
    ensures SearchFrom(t, p).Some? ==> exists q :: p <= q <= |t| && MatchAt(t, q) == SearchFrom(t, p) &&
                                        forall q' :: p <= q' < q ==> MatchAt(t, q').None?
  {
    SearchFromNone(t, p);
    SearchFromSome(t, p);
    if SearchFrom(t, p).Some? {
      var q :| FirstMatch(t, p, q) && MatchAt(t, q) == SearchFrom(t, p);
    }
  }

  lemma {:induction false} SearchFromNone(t: string, p: nat)
    requires p <= |t|
    ensures SearchFrom(t, p).None? ==> forall q :: p <= q <= |t| ==> MatchAt(t, q).None?
    decreases |t| - p
  {
    if MatchAt(t, p).None? && p < |t| {
      SearchFromNone(t, p + 1);
    }
  }

  /** `q` is the leftmost position at or after `p` where the pattern matches. */
  predicate FirstMatch(t: string, p: nat, q: nat)
  {
    p <= q <= |t| && MatchAt(t, q).Some? && forall q' :: p <= q' < q ==> MatchAt(t, q').None?
  }

  lemma FirstMatchStep(t: string, p: nat, q: nat)
    requires p < |t| && MatchAt(t, p).None? && FirstMatch(t, p + 1, q)
    ensures FirstMatch(t, p, q)
  {
  }

  lemma {:induction false} SearchFromSome(t: string, p: nat)
    requires p <= |t|
    ensures SearchFrom(t, p).Some? ==> exists q :: FirstMatch(t, p, q) && MatchAt(t, q) == SearchFrom(t, p)
    decreases |t| - p
  {
    if MatchAt(t, p).Some? {
      assert FirstMatch(t, p, p);
    } else if p < |t| {
      SearchFromSome(t, p + 1);
      if SearchFrom(t, p + 1).Some? {
        var q :| FirstMatch(t, p + 1, q) && MatchAt(t, q) == SearchFrom(t, p + 1);
        FirstMatchStep(t, p, q);
      }
    }
  }

  const CsrfMissing := Exc(RuntimeError, "Could not extract CSRF token from /web")

  /** `get_csrf()` on the body of `/web` (Zip_20.py, Zip_c.py, Mt_20.py, Zip_21.py). */
  function GetCsrf(page: string): (r: Outcome<string>)
    ensures r.Ok? ==> 1 <= |r.value| && '"' !in r.value
    ensures r.Err? ==> r.exc == CsrfMissing
  {
    SearchFromSpec(page, 0);
    match SearchFrom(page, 0)
    case Some(tok) => Ok(tok)
    case None => Err(CsrfMissing)
  }

  /** The token is found exactly when the page holds the pattern somewhere,
      and then it is the captured group of the leftmost occurrence. */
  lemma GetCsrfIff(page: string)
    ensures GetCsrf(page).Ok? <==> exists p, j, k, e :: Shape(page, p, j, k, e)
    ensures GetCsrf(page).Ok? ==>
              exists p, j, k, e :: Shape(page, p, j, k, e) && GetCsrf(page).value == page[k + 1..e] &&
                forall q :: 0 <= q < p ==> MatchAt(page, q).None?
  {
    SearchFromSpec(page, 0);
    if GetCsrf(page).Ok? {
      var p :| 0 <= p <= |page| && MatchAt(page, p) == Some(GetCsrf(page).value) &&
               forall q :: 0 <= q < p ==> MatchAt(page, q).None?;
      MatchAtIff(page, p);
      var j, k, e :| Shape(page, p, j, k, e);
      assert GetCsrf(page).value == page[k + 1..e];
    } else {
      forall p, j, k, e | Shape(page, p, j, k, e)
        ensures false
      {
        MatchAtIff(page, p);
      }
    }
  }

  /** A page that opens with `csrf_token <ws>:<ws> "<token>"` yields that token. */
  lemma GetCsrfOfAssignment(w1: string, w2: string, token: string, rest: string)
    requires forall i :: 0 <= i < |w1| ==> IsSpace(w1[i])
    requires forall i :: 0 <= i < |w2| ==> IsSpace(w2[i])
    requires 1 <= |token| && '"' !in token
    ensures GetCsrf(CsrfKey + w1 + ":" + w2 + "\"" + token + "\"" + rest) == Ok(token)
  {
    var a := CsrfKey + w1;
    var b := a + ":";
    var c := b + w2;
    var d := c + "\"";
    var f := d + token;
    var g := f + "\"";
    var t := g + rest;
    var j, k, e := |a|, |c|, |f|;
    assert t[..|g|] == g;
    assert t[..|CsrfKey|] == CsrfKey by { assert g[..|CsrfKey|] == CsrfKey; }
    assert AllSpace(t, |CsrfKey|, j) by {
      forall i | |CsrfKey| <= i < j ensures IsSpace(t[i]) {
        assert t[i] == w1[i - |CsrfKey|];
      }
    }
    assert AllSpace(t, j + 1, k) by {
      forall i | j + 1 <= i < k ensures IsSpace(t[i]) {
        assert t[i] == w2[i - j - 1];
      }
    }
    assert t[k + 1..e] == token;
    assert NoQuote(t, k + 1, e) by {
      forall i | k + 1 <= i < e ensures t[i] != '"' {
        assert t[i] == token[i - k - 1];
      }
    }
    assert t[j] == ':' && t[k] == '"' && t[e] == '"';
    GetCsrfOfLeadingMatch(t, j, k, e);
  }

  /** A match at the very start of the page is the one `re.search` returns. */
  lemma GetCsrfOfLeadingMatch(t: string, j: int, k: int, e: int)
    requires Shape(t, 0, j, k, e)
    ensures GetCsrf(t) == Ok(t[k + 1..e])
  {
    MatchAtIff(t, 0);
  }

  // ---------------------------------------------------------------------
  // Content type of /report/download (Zip_20.py, Zip_c.py, Mt_20.py)
  // ---------------------------------------------------------------------

  const XlsxMime: string := "application" + "/vnd.openxmlformats" + "-officedocument." + "spreadsheetml.sheet"
  const OctetStream: string := "application" + "/octet-stream"
  const DownloadFailed := Exc(RuntimeError, "Download failed")

  /** `ctype = r.headers.get("content-type", "").lower()` and the test that
      follows: the download is kept only if `ctype` mentions either type. */
  function CheckContentType(header: Option<string>): (r: Outcome<()>)
    ensures r.Err? ==> r.exc == DownloadFailed
  {
    var ctype := Lower(match header case Some(h) => h case None => "");
    if !Contains(ctype, XlsxMime) && !Contains(ctype, OctetStream) then Err(DownloadFailed)
    else Ok(())
  }

  lemma LowerIdempotent(s: string)
    ensures Lower(Lower(s)) == Lower(s)
  {
  }

  lemma LowerConcat(a: string, b: string)
    ensures Lower(a + b) == Lower(a) + Lower(b)
  {
  }

  /** The check ignores letter case. */
  lemma CheckContentTypeIgnoresCase(h: string)
    ensures CheckContentType(Some(h)) == CheckContentType(Some(Lower(h)))
  {
    LowerIdempotent(h);
  }

  /** Both accepted types are already in lower case. */
  lemma NeedlesAreLowerCase()
    ensures Lower(XlsxMime) == XlsxMime && Lower(OctetStream) == OctetStream
  {
    LowerOfLowerCase("application");
    LowerOfLowerCase("/vnd.openxmlformats");
    LowerOfLowerCase("-officedocument.");
    LowerOfLowerCase("spreadsheetml.sheet");
    LowerOfLowerCase("/octet-stream");
    LowerConcat("application", "/vnd.openxmlformats");
    LowerConcat("application" + "/vnd.openxmlformats", "-officedocument.");
    LowerConcat("application" + "/vnd.openxmlformats" + "-officedocument.", "spreadsheetml.sheet");
    LowerConcat("application", "/octet-stream");
  }

  /** Any header that mentions one of the two types, with any parameters or
      other text around it, is accepted. */
  lemma CheckContentTypeAccepts(pre: string, mime: string, post: string)
    requires mime == XlsxMime || mime == OctetStream
    ensures CheckContentType(Some(pre + mime + post)) == Ok(())
  {
    NeedlesAreLowerCase();
    LowerConcat(pre + mime, post);
    LowerConcat(pre, mime);
    ContainsInfix(Lower(pre), mime, Lower(post));
  }

  /** A missing header, or one naming neither type, is rejected. */
  lemma CheckContentTypeRejects(h: string)
    requires !Contains(Lower(h), XlsxMime) && !Contains(Lower(h), OctetStream)
    ensures CheckContentType(None) == Err(DownloadFailed)
    ensures CheckContentType(Some(h)) == Err(DownloadFailed)
  {
  }

  // ---------------------------------------------------------------------
  // JSON-RPC responses
  // ---------------------------------------------------------------------

  /** A decoded JSON value, as `r.json()` gives it. */
  datatype Json =
    | JNull
    | JBool(b: bool)
    | JNum(x: real)
    | JStr(s: string)
    | JArr(items: seq<Json>)
    | JObj(fields: map<string, Json>)

  /** Python truthiness (`if not v`). */
  predicate Truthy(v: Json)
  {
    match v
    case JNull => false
    case JBool(b) => b
    case JNum(x) => x != 0.0
    case JStr(s) => s != ""
    case JArr(items) => items != []
    case JObj(fields) => fields != map[]
  }

  /** `d.get(key, default)` on a dict; calling `.get` on anything else raises AttributeError. */
  function Get(d: Json, key: string, default: Json): Outcome<Json>
  {
    if !d.JObj? then Err(Exc(AttributeError, "object has no attribute 'get'"))
    else if key in d.fields then Ok(d.fields[key]) else Ok(default)
  }

  /** `res.get("result", {}).get(key)` followed by `if not v: raise RuntimeError(...)`:
      `login` (key "uid") and `call_button` (key "report_name"). */
  function ResultField(res: Json, key: string, failure: string): (r: Outcome<Json>)
    ensures r.Ok? ==> Truthy(r.value)
  {
    match Get(res, "result", JObj(map[]))
    case Err(e) => Err(e)
    case Ok(result) =>
      match Get(result, key, JNull)
      case Err(e) => Err(e)
      case Ok(v) => if !Truthy(v) then Err(Exc(RuntimeError, failure)) else Ok(v)
  }

  /** The field is returned exactly when the response is an object whose
      `result` (if present) is an object holding a truthy value under the key. */
  lemma ResultFieldIff(res: Json, key: string, failure: string, v: Json)
    ensures ResultField(res, key, failure) == Ok(v) <==>
              res.JObj? && "result" in res.fields && res.fields["result"].JObj? &&
              key in res.fields["result"].fields && res.fields["result"].fields[key] == v && Truthy(v)
    ensures res.JObj? && "result" !in res.fields ==> ResultField(res, key, failure) == Err(Exc(RuntimeError, failure))
  {
  }

  const LoginFailed := "Login failed"
  const WizardSaveFailed := "Wizard save failed"
  const NoReportName := "Report button did not return report_name"

  /** `login()`'s check on the authenticate response. */
  function LoginUid(res: Json): (r: Outcome<Json>)
    ensures r.Ok? ==> Truthy(r.value)
  {
    ResultField(res, "uid", LoginFailed)
  }

  /** `call_button()`'s check on the button response. */
  function ReportName(res: Json): (r: Outcome<Json>)
    ensures r.Ok? ==> Truthy(r.value)
  {
    ResultField(res, "report_name", NoReportName)
  }

  /** `wizard_id = (res.get("result") or [{}])[0].get("id")` and
      `if not wizard_id: raise RuntimeError(...)` in `web_save`. */
  function WizardId(res: Json): (r: Outcome<Json>)
    ensures r.Ok? ==> Truthy(r.value)
  {
    match Get(res, "result", JNull)
    case Err(e) => Err(e)
    case Ok(result) =>
      var records := if Truthy(result) then result else JArr([JObj(map[])]);
      var first: Outcome<Json> :=
        match records
        case JArr(items) => Ok(items[0])
        case JObj(_) => Err(Exc(KeyError, "0"))
        case JStr(s) => Ok(JStr([s[0]]))
        case _ => Err(Exc(TypeError, "object is not subscriptable"));
      match first
      case Err(e) => Err(e)
      case Ok(record) =>
        match Get(record, "id", JNull)
        case Err(e) => Err(e)
        case Ok(id) => if !Truthy(id) then Err(Exc(RuntimeError, WizardSaveFailed)) else Ok(id)
  }

  /** The id is returned exactly when `result` is a non-empty list whose first
      record holds a truthy `id`; an absent or empty `result` is a save failure. */
  lemma WizardIdIff(res: Json, id: Json)
    ensures WizardId(res) == Ok(id) <==>
              res.JObj? && "result" in res.fields && res.fields["result"].JArr? &&
              |res.fields["result"].items| >= 1 && res.fields["result"].items[0].JObj? &&
              "id" in res.fields["result"].items[0].fields &&
              res.fields["result"].items[0].fields["id"] == id && Truthy(id)
    ensures res.JObj? && ("result" !in res.fields || !Truthy(res.fields["result"])) ==>
              WizardId(res) == Err(Exc(RuntimeError, WizardSaveFailed))
  {
  }
}
