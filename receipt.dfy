/**
 * `parseReportIdFromReceipt` (frontend/app/lib/crypto.ts): digs the report id out of a
 * transaction receipt, a JSON document, and returns "" instead of throwing whenever a piece
 * is missing or has the wrong shape.
 */
module Receipt {
  import opened Wrappers
  import opened Decimal

  /** A JSON value as `response.json()` produces it; an absent property is None. */
  datatype Json =
    | Null
    | Bool(b: bool)
    | Num(n: real)
    | Str(s: string)
    | Arr(items: seq<Json>)
    | Obj(fields: map<string, Json>)

  /** JavaScript truthiness of a value that may be `undefined`. */
  predicate Truthy(v: Option<Json>)
    ensures Truthy(v) ==> v.Some? && v.value != Null
    ensures v.Some? && (v.value.Arr? || v.value.Obj?) ==> Truthy(v)
  {
    match v
    case None => false
    case Some(Null) => false
    case Some(Bool(b)) => b
    case Some(Num(n)) => n != 0.0
    case Some(Str(s)) => s != ""
    case Some(_) => true
  }

  /**
   * `v?.key`: undefined when `v` is null or undefined, the property's value when `v` is an
   * object holding `key`, and undefined for every other value (none of the keys read here
   * is a property of strings, numbers, booleans or arrays).
   */
  function Member(v: Option<Json>, key: string): (r: Option<Json>)
    ensures r.Some? <==> v.Some? && v.value.Obj? && key in v.value.fields
  {
    if v.Some? && v.value.Obj? && key in v.value.fields then Some(v.value.fields[key]) else None
  }

  /** `x[key] === wanted` for a non-null element `x`. */
  predicate Matches(x: Json, key: string, wanted: string)
    ensures Matches(x, key, wanted) <==> x != Null && Member(Some(x), key) == Some(Str(wanted))
  {
    x.Obj? && key in x.fields && x.fields[key] == Str(wanted)
  }

  datatype Search = Found(index: nat) | NotFound | Threw

  /**
   * `xs.find(x => x[key] === wanted)`: the first matching element, or undefined; reading a
   * property of a null element before any match throws a TypeError.
   */
  function FindFirst(xs: seq<Json>, key: string, wanted: string): (r: Search)
    ensures r.Found? ==>
      (r.index < |xs| && Matches(xs[r.index], key, wanted)
       && forall j :: 0 <= j < r.index ==> xs[j] != Null && !Matches(xs[j], key, wanted))
    ensures r.NotFound? ==> forall j :: 0 <= j < |xs| ==> xs[j] != Null && !Matches(xs[j], key, wanted)
    ensures r.Threw? ==>
      exists i :: (0 <= i < |xs| && xs[i] == Null
                   && forall j :: 0 <= j < i ==> !Matches(xs[j], key, wanted))
  {
    if xs == [] then NotFound
    else if xs[0] == Null then Threw
    else if Matches(xs[0], key, wanted) then Found(0)
    else
      match FindFirst(xs[1..], key, wanted)
      case Found(i) => Found(i + 1)
      case NotFound => NotFound
      case Threw => Threw
  }

  /** JavaScript's `\s`: the WhiteSpace and LineTerminator code points. */
  predicate IsRegexSpace(c: char)
    ensures IsRegexSpace(c) ==> !IsDigit(c) && c != '[' && c != ':'
    ensures c == ' ' || c == '\t' || c == '\n' || c == '\r' ==> IsRegexSpace(c)
  {
    var u := c as int;
    (0x09 <= u <= 0x0D) || u == 0x20 || u == 0xA0 || u == 0x1680 || (0x2000 <= u <= 0x200A)
    || u == 0x2028 || u == 0x2029 || u == 0x202F || u == 0x205F || u == 0x3000 || u == 0xFEFF
  }

  /** The end of the longest run of `\s` starting at `i`. */
  function SkipSpaces(s: string, i: nat): (j: nat)
    requires i <= |s|
    ensures i <= j <= |s|
    ensures forall x :: i <= x < j ==> IsRegexSpace(s[x])
    ensures j < |s| ==> !IsRegexSpace(s[j])
    decreases |s| - i
  {
    if i < |s| && IsRegexSpace(s[i]) then SkipSpaces(s, i + 1) else i
  }

  /** The end of the longest run of `\d` starting at `i`. */
  function SkipDigits(s: string, i: nat): (j: nat)
    requires i <= |s|
    ensures i <= j <= |s|
    ensures forall x :: i <= x < j ==> IsDigit(s[x])
    ensures j < |s| ==> !IsDigit(s[j])
    decreases |s| - i
  {
    if i < |s| && IsDigit(s[i]) then SkipDigits(s, i + 1) else i
  }

  const Label := "arguments:"

  /**
   * The text between `p` and `k + 5` spells `arguments:\s*\[\s*(\d+)field`, with the `[` at
   * `i` and the captured digits at `j..k`.
   */
  ghost predicate Shape(s: string, p: nat, i: nat, j: nat, k: nat)
  {
    p + |Label| <= i < j <= k && k + 5 <= |s|
    && s[p..p + |Label|] == Label
    && (forall x :: p + |Label| <= x < i ==> IsRegexSpace(s[x]))
    && s[i] == '['
    && (forall x :: i + 1 <= x < j ==> IsRegexSpace(s[x]))
    && j < k && (forall x :: j <= x < k ==> IsDigit(s[x]))
    && s[k..k + 5] == "field"
  }

  /**
   * The capture of a match of `/arguments:\s*\[\s*(\d+)field/` that starts at `p`. Each
   * repetition is followed by a character it cannot consume, so the greedy runs are the only
   * ones that can succeed and no backtracking is needed.
   */
  function MatchAt(s: string, p: nat): (r: Option<string>)
    ensures r.Some? ==> r.value != [] && AllDigits(r.value)
  {
    if p + |Label| <= |s| && s[p..p + |Label|] == Label then
      var i := SkipSpaces(s, p + |Label|);
      if i < |s| && s[i] == '[' then
        var j := SkipSpaces(s, i + 1);
        var k := SkipDigits(s, j);
        if j < k && k + 5 <= |s| && s[k..k + 5] == "field" then Some(s[j..k]) else None
      else None
    else None
  }

  /** Whatever MatchAt captures comes from a genuine match of the pattern. */
  lemma MatchAtSound(s: string, p: nat)
    requires MatchAt(s, p).Some?
    ensures exists i: nat, j: nat, k: nat :: Shape(s, p, i, j, k) && MatchAt(s, p) == Some(s[j..k])
  {
    var i := SkipSpaces(s, p + |Label|);
    var j := SkipSpaces(s, i + 1);
    var k := SkipDigits(s, j);
    assert Shape(s, p, i, j, k);
  }

  /** Every match of the pattern at `p` is found by MatchAt, with the same capture. */
  lemma MatchAtComplete(s: string, p: nat, i: nat, j: nat, k: nat)
    requires Shape(s, p, i, j, k)
    ensures MatchAt(s, p) == Some(s[j..k])
  {
    SkipSpacesExact(s, p + |Label|, i);
    SkipSpacesExact(s, i + 1, j);
    SkipDigitsExact(s, j, k);
  }

  /** A maximal run of `\s` is the one SkipSpaces finds. */
  lemma SkipSpacesExact(s: string, i: nat, t: nat)
    requires i <= t <= |s|
    requires forall x :: i <= x < t ==> IsRegexSpace(s[x])
    requires t < |s| ==> !IsRegexSpace(s[t])
    ensures SkipSpaces(s, i) == t
  {
  }

  /** A maximal run of `\d` is the one SkipDigits finds. */
  lemma SkipDigitsExact(s: string, i: nat, t: nat)
    requires i <= t <= |s|
    requires forall x :: i <= x < t ==> IsDigit(s[x])
    requires t < |s| ==> !IsDigit(s[t])
    ensures SkipDigits(s, i) == t
  {
  }

  /** Where `value.match(...)` finds its match when it scans from `p`: the leftmost position. */
  function LeftmostMatch(s: string, p: nat): (r: Option<nat>)
    requires p <= |s|
    ensures r.Some? ==> p <= r.value <= |s| && MatchAt(s, r.value).Some?
    ensures r.Some? ==> forall q :: p <= q < r.value ==> MatchAt(s, q).None?
    ensures r.None? ==> forall q :: p <= q <= |s| ==> MatchAt(s, q).None?
    decreases |s| - p
  {
    if MatchAt(s, p).Some? then Some(p)
    else if p == |s| then None
    else LeftmostMatch(s, p + 1)
  }

  /** `value.match(/arguments:\s*\[\s*(\d+)field/)?.[1]`: the capture of the leftmost match. */
  function FirstMatch(s: string): (r: Option<string>)
    ensures r.Some? ==> r.value != [] && AllDigits(r.value)
  {
    match LeftmostMatch(s, 0)
    case None => None
    case Some(q) => MatchAt(s, q)
  }

  /**
   * The string `futureOutput.value` that `parseReportIdFromReceipt` matches against: the value
   * of the first "future" output of the first "submit_report" transition. None stands for
   * every path that returns "" before matching: a missing or falsy piece, a piece of the wrong
   * kind (a TypeError, caught), or no such transition (the Error thrown and caught).
   */
  function FutureValue(receipt: Option<Json>): (r: Option<string>)
    ensures r.Some? ==> r.value != ""
  {
    var listed := Member(Member(receipt, "execution"), "transitions");
    var transitions := if Truthy(listed) then listed.value else Arr([]);
    if !transitions.Arr? then None
    else
      match FindFirst(transitions.items, "function", "submit_report")
      case NotFound => None
      case Threw => None
      case Found(t) =>
        var outputs := Member(Some(transitions.items[t]), "outputs");
        if outputs.None? || outputs.value.Null? then None
        else if !outputs.value.Arr? then None
        else
          match FindFirst(outputs.value.items, "type", "future")
          case NotFound => None
          case Threw => None
          case Found(o) =>
            var value := Member(Some(outputs.value.items[o]), "value");
            if !Truthy(value) || !value.value.Str? then None
            else Some(value.value.s)
  }

  /**
   * `parseReportIdFromReceipt`: the digit run captured by the leftmost match of
   * `/arguments:\s*\[\s*(\d+)field/` in the future output's value, or "" otherwise; it never
   * throws.
   */
  function ParseReportIdFromReceipt(receipt: Option<Json>): (r: string)
    ensures r == "" || AllDigits(r)
    ensures FutureValue(receipt).None? ==> r == ""
    ensures FutureValue(receipt).Some? && FirstMatch(FutureValue(receipt).value).None? ==> r == ""
    ensures FutureValue(receipt).Some? && FirstMatch(FutureValue(receipt).value).Some? ==>
      r == FirstMatch(FutureValue(receipt).value).value
  {
    match FutureValue(receipt)
    case None => ""
    case Some(value) =>
      match FirstMatch(value)
      case None => ""
      case Some(digits) => digits
  }

  /** The leftmost match of the pattern decides what `match` captures. */
  lemma LeftmostMatchCaptured(v: string, p: nat, i: nat, j: nat, k: nat)
    requires Shape(v, p, i, j, k)
    requires forall q, i', j', k' :: 0 <= q < p ==> !Shape(v, q, i', j', k')
    ensures FirstMatch(v) == Some(v[j..k])
  {
    MatchAtComplete(v, p, i, j, k);
    forall q | 0 <= q < p
      ensures MatchAt(v, q).None?
    {
      if MatchAt(v, q).Some? {
        MatchAtSound(v, q);
      }
    }
    assert LeftmostMatch(v, 0) == Some(p);
  }

  /**
   * The path `parseReportIdFromReceipt` reads a value along: `ts` is the transitions list,
   * `t` the first "submit_report" transition (no null before it), `outs` its outputs, `o` the
   * first "future" output (no null before it), and `v` that output's non-empty string value.
   */
  ghost predicate ReportPath(receipt: Option<Json>, ts: seq<Json>, t: nat, outs: seq<Json>, o: nat, v: string)
  {
    Member(Member(receipt, "execution"), "transitions") == Some(Arr(ts))
    && t < |ts| && Matches(ts[t], "function", "submit_report")
    && (forall x :: 0 <= x < t ==> ts[x] != Null && !Matches(ts[x], "function", "submit_report"))
    && Member(Some(ts[t]), "outputs") == Some(Arr(outs))
    && o < |outs| && Matches(outs[o], "type", "future")
    && (forall x :: 0 <= x < o ==> outs[x] != Null && !Matches(outs[x], "type", "future"))
    && Member(Some(outs[o]), "value") == Some(Str(v)) && v != ""
  }

  /** The future output's value is found along the path the receipt spells out. */
  lemma FutureValueFound(receipt: Option<Json>, ts: seq<Json>, t: nat, outs: seq<Json>, o: nat, v: string)
    requires ReportPath(receipt, ts, t, outs, o, v)
    ensures FutureValue(receipt) == Some(v)
  {
    FindFirstUnique(ts, "function", "submit_report", t);
    FindFirstUnique(outs, "type", "future", o);
  }

  /**
   * The converse: a value is read only along that path. A missing `execution`, `transitions`
   * or `outputs`, a missing or null-preceded transition or output, and a missing, empty or
   * non-string `value` all leave nothing to match.
   */
  lemma FutureValueOnPath(receipt: Option<Json>) returns (ts: seq<Json>, t: nat, outs: seq<Json>, o: nat)
    requires FutureValue(receipt).Some?
    ensures ReportPath(receipt, ts, t, outs, o, FutureValue(receipt).value)
  {
    var listed := Member(Member(receipt, "execution"), "transitions");
    ts := listed.value.items;
    t := FindFirst(ts, "function", "submit_report").index;
    outs := Member(Some(ts[t]), "outputs").value.items;
    o := FindFirst(outs, "type", "future").index;
  }

  /**
   * When the receipt holds a "submit_report" transition (with no null transition before it)
   * whose first "future" output has a string value containing the pattern, the result is the
   * digit run of the leftmost match.
   */
  lemma ReportIdFound(receipt: Option<Json>, ts: seq<Json>, t: nat, outs: seq<Json>, o: nat,
                      v: string, p: nat, i: nat, j: nat, k: nat)
    requires Member(Member(receipt, "execution"), "transitions") == Some(Arr(ts))
    requires t < |ts| && Matches(ts[t], "function", "submit_report")
    requires forall x :: 0 <= x < t ==> ts[x] != Null && !Matches(ts[x], "function", "submit_report")
    requires Member(Some(ts[t]), "outputs") == Some(Arr(outs))
    requires o < |outs| && Matches(outs[o], "type", "future")
    requires forall x :: 0 <= x < o ==> outs[x] != Null && !Matches(outs[x], "type", "future")
    requires Member(Some(outs[o]), "value") == Some(Str(v))
    requires Shape(v, p, i, j, k)
    requires forall q, i', j', k' :: 0 <= q < p ==> !Shape(v, q, i', j', k')
    ensures ParseReportIdFromReceipt(receipt) == v[j..k]
  {
    FutureValueFound(receipt, ts, t, outs, o, v);
    LeftmostMatchCaptured(v, p, i, j, k);
  }

  /** `find` returns the first matching element when no null comes before it. */
  lemma FindFirstUnique(xs: seq<Json>, key: string, wanted: string, t: nat)
    requires t < |xs| && Matches(xs[t], key, wanted)
    requires forall x :: 0 <= x < t ==> xs[x] != Null && !Matches(xs[x], key, wanted)
    ensures FindFirst(xs, key, wanted) == Found(t)
  {
  }

  /** A receipt with no transitions list, or with none for "submit_report", yields "". */
  lemma NoReportTransitionGivesEmpty(receipt: Option<Json>)
    requires
      var listed := Member(Member(receipt, "execution"), "transitions");
      !Truthy(listed)
      || (listed.value.Arr? && forall x :: 0 <= x < |listed.value.items| ==>
            !Matches(listed.value.items[x], "function", "submit_report"))
    ensures ParseReportIdFromReceipt(receipt) == ""
  {
  }
}
