/** The zod schema pieces the request handlers use, each as a partial
    function from a JSON member to the value it accepts. A refused value
    is `SchemaRejected`. */
module Schema {
  import opened Common
  import opened Text


  /** zod's `uuid()`: 8-4-4-4-12 hexadecimal digits. */
  predicate IsUuid(s: string) {
    |s| == 36 &&
    forall i :: 0 <= i < 36 ==>
      if i == 8 || i == 13 || i == 18 || i == 23 then s[i] == '-' else IsHexDigit(s[i])
  }

  predicate IsLetter(c: char) { 'a' <= c <= 'z' || 'A' <= c <= 'Z' }

  predicate IsSchemeChar(c: char) { IsLetter(c) || IsDigit(c) || c == '+' || c == '-' || c == '.' }

  /** zod's `url()`, approximated by the shape of a URL scheme: a letter,
      then scheme characters, then a colon. */
  predicate IsUrl(s: string) {
    |s| >= 2 && IsLetter(s[0]) &&
    exists k :: 1 <= k < |s| && s[k] == ':' && forall i :: 0 <= i < k ==> IsSchemeChar(s[i])
  }

  /** `z.string().min(lo).max(hi)` on a present member. */
  function RequiredText(body: Json, key: string, lo: nat, hi: nat): (r: Outcome<string>)
    ensures r.Ok? <==> StringMember(body, key).Some? && lo <= |StringMember(body, key).value| <= hi
    ensures r.Ok? ==> r.value == StringMember(body, key).value
    ensures r.Err? ==> r.failure == SchemaRejected
  {
    match StringMember(body, key)
    case Some(s) => if lo <= |s| <= hi then Ok(s) else Err(SchemaRejected)
    case None => Err(SchemaRejected)
  }

  /** `z.string().min(lo).max(hi).optional()`: absent is accepted. */
  function OptionalText(body: Json, key: string, lo: nat, hi: nat): (r: Outcome<Option<string>>)
    ensures Member(body, key).None? ==> r == Ok(None)
    ensures Member(body, key).Some? ==> (r.Ok? <==> RequiredText(body, key, lo, hi).Ok?)
    ensures r.Ok? && r.value.Some? ==> r.value.value == StringMember(body, key).value && lo <= |r.value.value| <= hi
    ensures Member(body, key).Some? && r.Ok? ==> r.value.Some?
  {
    if Member(body, key).None? then Ok(None)
    else
      match RequiredText(body, key, lo, hi)
      case Ok(s) => Ok(Some(s))
      case Err(f) => Err(f)
  }

  /** `z.string().optional()`. */
  function OptionalString(body: Json, key: string): (r: Outcome<Option<string>>)
    ensures r.Ok? <==> Member(body, key).None? || StringMember(body, key).Some?
    ensures r.Ok? && r.value.Some? ==> StringMember(body, key) == r.value
    ensures r.Ok? && r.value.None? ==> Member(body, key).None?
  {
    match Member(body, key)
    case None => Ok(None)
    case Some(JStr(s)) => Ok(Some(s))
    case Some(_) => Err(SchemaRejected)
  }

  /** `z.string().uuid()`. */
  function RequiredUuid(body: Json, key: string): (r: Outcome<string>)
    ensures r.Ok? <==> StringMember(body, key).Some? && IsUuid(StringMember(body, key).value)
    ensures r.Ok? ==> r.value == StringMember(body, key).value
  {
    match StringMember(body, key)
    case Some(s) => if IsUuid(s) then Ok(s) else Err(SchemaRejected)
    case None => Err(SchemaRejected)
  }

  /** `z.string().uuid().optional()`. */
  function OptionalUuid(body: Json, key: string): (r: Outcome<Option<string>>)
    ensures Member(body, key).None? ==> r == Ok(None)
    ensures Member(body, key).Some? ==> (r.Ok? <==> RequiredUuid(body, key).Ok?)
    ensures r.Ok? && r.value.Some? ==> IsUuid(r.value.value) && r.value.value == StringMember(body, key).value
    ensures Member(body, key).Some? && r.Ok? ==> r.value.Some?
  {
    if Member(body, key).None? then Ok(None)
    else
      match RequiredUuid(body, key)
      case Ok(s) => Ok(Some(s))
      case Err(f) => Err(f)
  }

  /** `z.string().url().optional()`. */
  function OptionalUrl(body: Json, key: string): (r: Outcome<Option<string>>)
    ensures Member(body, key).None? ==> r == Ok(None)
    ensures r.Ok? <==> Member(body, key).None? || (StringMember(body, key).Some? && IsUrl(StringMember(body, key).value))
    ensures r.Ok? && r.value.Some? ==> IsUrl(r.value.value) && Member(body, key) == Some(JStr(r.value.value))
    ensures Member(body, key).Some? && r.Ok? ==> r.value.Some?
  {
    match Member(body, key)
    case None => Ok(None)
    case Some(JStr(s)) => if IsUrl(s) then Ok(Some(s)) else Err(SchemaRejected)
    case Some(_) => Err(SchemaRejected)
  }

  /** `z.boolean().optional()`. */
  function OptionalBool(body: Json, key: string): (r: Outcome<Option<bool>>)
    ensures Member(body, key).None? ==> r == Ok(None)
    ensures r.Ok? <==> Member(body, key).None? || BoolMember(body, key).Some?
    ensures r.Ok? && r.value.Some? ==> BoolMember(body, key) == r.value
    ensures Member(body, key).Some? && r.Ok? ==> r.value.Some?
  {
    match Member(body, key)
    case None => Ok(None)
    case Some(JBool(b)) => Ok(Some(b))
    case Some(_) => Err(SchemaRejected)
  }

  /** `z.number().min(lo).max(hi).optional()`. */
  function OptionalNumberIn(body: Json, key: string, lo: real, hi: real): (r: Outcome<Option<real>>)
    ensures Member(body, key).None? ==> r == Ok(None)
    ensures r.Ok? <==>
      Member(body, key).None? || (NumberMember(body, key).Some? && lo <= NumberMember(body, key).value <= hi)
    ensures r.Ok? && r.value.Some? ==> NumberMember(body, key) == r.value
    ensures Member(body, key).Some? && r.Ok? ==> r.value.Some?
  {
    match Member(body, key)
    case None => Ok(None)
    case Some(JNum(n)) => if lo <= n <= hi then Ok(Some(n)) else Err(SchemaRejected)
    case Some(_) => Err(SchemaRejected)
  }

  predicate IsStringArray(j: Json) {
    j.JArr? && forall i :: 0 <= i < |j.items| ==> j.items[i].JStr?
  }

  /** `z.string()`. */
  function RequiredString(body: Json, key: string): (r: Outcome<string>)
    ensures r.Ok? <==> StringMember(body, key).Some?
    ensures r.Ok? ==> Member(body, key) == Some(JStr(r.value))
  {
    match StringMember(body, key)
    case Some(s) => Ok(s)
    case None => Err(SchemaRejected)
  }

  /** `z.number().min(lo).max(hi)` on a present member. */
  function RequiredNumberIn(body: Json, key: string, lo: real, hi: real): (r: Outcome<real>)
    ensures r.Ok? <==> NumberMember(body, key).Some? && lo <= NumberMember(body, key).value <= hi
    ensures r.Ok? ==> Member(body, key) == Some(JNum(r.value))
  {
    match NumberMember(body, key)
    case Some(n) => if lo <= n <= hi then Ok(n) else Err(SchemaRejected)
    case None => Err(SchemaRejected)
  }

  /** `z.number().min(lo).optional()`. */
  function OptionalNumberAtLeast(body: Json, key: string, lo: real): (r: Outcome<Option<real>>)
    ensures Member(body, key).None? ==> r == Ok(None)
    ensures r.Ok? <==>
      Member(body, key).None? || (NumberMember(body, key).Some? && lo <= NumberMember(body, key).value)
    ensures r.Ok? && r.value.Some? ==> NumberMember(body, key) == r.value
    ensures Member(body, key).Some? && r.Ok? ==> r.value.Some?
  {
    match Member(body, key)
    case None => Ok(None)
    case Some(JNum(n)) => if lo <= n then Ok(Some(n)) else Err(SchemaRejected)
    case Some(_) => Err(SchemaRejected)
  }

  /** `z.number().optional()`. */
  function OptionalNumber(body: Json, key: string): (r: Outcome<Option<real>>)
    ensures Member(body, key).None? ==> r == Ok(None)
    ensures r.Ok? <==> Member(body, key).None? || NumberMember(body, key).Some?
    ensures r.Ok? && r.value.Some? ==> NumberMember(body, key) == r.value
    ensures Member(body, key).Some? && r.Ok? ==> r.value.Some?
  {
    match Member(body, key)
    case None => Ok(None)
    case Some(JNum(n)) => Ok(Some(n))
    case Some(_) => Err(SchemaRejected)
  }

  function Strings(items: seq<Json>): (r: seq<string>)
    requires forall i :: 0 <= i < |items| ==> items[i].JStr?
    ensures |r| == |items| && forall i :: 0 <= i < |items| ==> items[i] == JStr(r[i])
  {
    if items == [] then [] else [items[0].s] + Strings(items[1..])
  }

  /** `z.array(z.string()).optional()`. */
  function OptionalStringArray(body: Json, key: string): (r: Outcome<Option<seq<string>>>)
    ensures Member(body, key).None? ==> r == Ok(None)
    ensures r.Ok? <==> Member(body, key).None? || IsStringArray(Member(body, key).value)
    ensures r.Ok? && r.value.Some? ==>
      Member(body, key).Some? && IsStringArray(Member(body, key).value) &&
      r.value.value == Strings(Member(body, key).value.items)
    ensures Member(body, key).Some? && r.Ok? ==> r.value.Some?
  {
    match Member(body, key)
    case None => Ok(None)
    case Some(v) =>
      if IsStringArray(v) then
        Ok(Some(Strings(v.items)))
      else Err(SchemaRejected)
  }

  /** A text field of a multipart form as the upload middleware hands it
      over: one value, or the values of a field sent several times. */
  datatype FormValue = Single(text: string) | Repeated(texts: seq<string>)

  /** JavaScript truthiness of a form field: an array is always truthy. */
  predicate TruthyField(form: map<string, FormValue>, key: string) {
    key in form && (form[key].Repeated? || form[key].text != "")
  }

  /** `parseInt(v)`: an array is first turned into its elements joined by
      commas. */
  function ParseIntField(v: FormValue): (r: Option<int>)
    ensures v.Single? ==> r == ParseInt(v.text)
    ensures v == Repeated([]) ==> r == None
  {
    match v
    case Single(s) => ParseInt(s)
    case Repeated(items) => ParseInt(Join(items, ","))
  }

  /** A field sent several times whose first text is a number reads as
      that number: the comma that joins the texts stops `parseInt`. */
  lemma RepeatedFieldReadsFirst(n: nat, rest: seq<string>)
    ensures ParseIntField(Repeated([NatToString(n)] + rest)) == Some(n)
  {
    var parts := [NatToString(n)] + rest;
    var tail := if rest == [] then "" else "," + Join(rest, ",");
    assert Join(parts, ",") == NatToString(n) + tail by {
      if rest == [] {
        assert parts == [NatToString(n)];
      } else {
        assert parts[1..] == rest;
      }
    }
    assert tail == [] || tail[0] == ',';
    ParseIntIgnoresTrailingText(n, tail);
  }

  /** The uploaded file as the upload middleware describes it. */
  datatype UploadedFile = UploadedFile(originalName: string, path: string, size: nat, mimetype: string)
}
