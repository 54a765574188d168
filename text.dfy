/** Character search and substring tests on strings, as the Rust standard
    library's `str::find`, `str::rfind`, `str::contains` and `join` are used by
    the bot, and the JSON-object slice that both LLM clients cut out of a reply. */
module Text {
  import opened Wrappers

  /** `pat` occurs in `text` starting at index `i`. */
  predicate OccursAt(text: string, pat: string, i: int) {
    0 <= i && i + |pat| <= |text| && text[i..i + |pat|] == pat
  }

  /** First index at or after `from` holding `c`. */
  function IndexOfFrom(text: string, c: char, from: nat): (r: Option<nat>)
    requires from <= |text|
    ensures r.Some? ==> from <= r.value < |text| && text[r.value] == c
    ensures r.Some? ==> forall j :: from <= j < r.value ==> text[j] != c
    ensures r.None? ==> forall j :: from <= j < |text| ==> text[j] != c
    decreases |text| - from
  {
    if from == |text| then None
    else if text[from] == c then Some(from)
    else IndexOfFrom(text, c, from + 1)
  }

  /** `str::find(c)`: the first index holding `c`. */
  function IndexOf(text: string, c: char): (r: Option<nat>)
    ensures r.Some? ==> r.value < |text| && text[r.value] == c && c !in text[..r.value]
    ensures r.None? <==> c !in text
  {
    var r := IndexOfFrom(text, c, 0);
    assert r.Some? ==> forall j :: 0 <= j < r.value ==> text[..r.value][j] != c;
    r
  }

  /** Last index below `upto` holding `c`. */
  function LastIndexBelow(text: string, c: char, upto: nat): (r: Option<nat>)
    requires upto <= |text|
    ensures r.Some? ==> r.value < upto && text[r.value] == c
    ensures r.Some? ==> forall j :: r.value < j < upto ==> text[j] != c
    ensures r.None? ==> forall j :: 0 <= j < upto ==> text[j] != c
  {
    if upto == 0 then None
    else if text[upto - 1] == c then Some(upto - 1)
    else LastIndexBelow(text, c, upto - 1)
  }

  /** `str::rfind(c)`: the last index holding `c`. */
  function LastIndexOf(text: string, c: char): (r: Option<nat>)
    ensures r.Some? ==> r.value < |text| && text[r.value] == c && c !in text[r.value + 1..]
    ensures r.None? <==> c !in text
  {
    var r := LastIndexBelow(text, c, |text|);
    if r.Some? then
      var tail := text[r.value + 1..];
      assert forall j :: 0 <= j < |tail| ==> tail[j] == text[r.value + 1 + j];
      r
    else r
  }

  /** Whether `pat` occurs in `text` at some index `from` or later. */
  function ContainsFrom(text: string, pat: string, from: nat): (r: bool)
    ensures r <==> exists i :: from <= i && OccursAt(text, pat, i)
    decreases |text| - from
  {
    if from + |pat| > |text| then
      assert forall i :: from <= i ==> !OccursAt(text, pat, i);
      false
    else if text[from..from + |pat|] == pat then
      assert OccursAt(text, pat, from);
      true
    else
      assert forall i :: from <= i ==> OccursAt(text, pat, i) ==> from + 1 <= i;
      ContainsFrom(text, pat, from + 1)
  }

  /** `str::contains(pat)`. */
  function Contains(text: string, pat: string): (r: bool)
    ensures r <==> exists i :: OccursAt(text, pat, i)
  {
    ContainsFrom(text, pat, 0)
  }

  /** `[String]::join(sep)`: the parts with `sep` between neighbours. */
  function Join(parts: seq<string>, sep: string): string
  {
    if |parts| == 0 then ""
    else if |parts| == 1 then parts[0]
    else Join(parts[..|parts| - 1], sep) + sep + parts[|parts| - 1]
  }

  /** Total length of the parts. */
  function TotalLength(parts: seq<string>): nat
  {
    if |parts| == 0 then 0 else TotalLength(parts[..|parts| - 1]) + |parts[|parts| - 1]|
  }

  /** Index at which part `k` starts inside `Join(parts, sep)`. */
  function PartOffset(parts: seq<string>, sep: string, k: nat): nat
    requires k < |parts|
  {
    TotalLength(parts[..k]) + k * |sep|
  }

  /** The joined text is exactly as long as the parts plus one separator
      between each pair of neighbours. */
  lemma {:induction false} JoinLength(parts: seq<string>, sep: string)
    requires |parts| > 0
    ensures |Join(parts, sep)| == TotalLength(parts) + (|parts| - 1) * |sep|
  {
    var n := |parts|;
    if n > 1 {
      var init := parts[..n - 1];
      JoinLength(init, sep);
      assert Join(parts, sep) == Join(init, sep) + sep + parts[n - 1];
      assert TotalLength(parts) == TotalLength(init) + |parts[n - 1]|;
      assert (n - 1) * |sep| == (n - 2) * |sep| + |sep|;
    }
  }

  /** An occurrence survives appending more text. */
  lemma OccursInPrefix(text: string, more: string, pat: string, i: int)
    requires OccursAt(text, pat, i)
    ensures OccursAt(text + more, pat, i)
  {
    assert (text + more)[i..i + |pat|] == text[i..i + |pat|];
  }

  /** Every part can be found in the joined text at its offset: joining loses
      nothing and keeps the parts in order. */
  lemma {:induction false} JoinKeepsParts(parts: seq<string>, sep: string, k: nat)
    requires k < |parts|
    ensures OccursAt(Join(parts, sep), parts[k], PartOffset(parts, sep, k))
  {
    var n := |parts|;
    if n == 1 {
      assert parts[..0] == [];
    } else {
      var init := parts[..n - 1];
      var left := Join(init, sep);
      assert Join(parts, sep) == left + (sep + parts[n - 1]);
      if k < n - 1 {
        JoinKeepsParts(init, sep, k);
        assert init[..k] == parts[..k];
        OccursInPrefix(left, sep + parts[n - 1], parts[k], PartOffset(parts, sep, k));
      } else {
        JoinLength(init, sep);
        assert init[..n - 2] == parts[..n - 2];
        assert parts[..k] == init;
        assert PartOffset(parts, sep, k) == |left| + |sep|;
      }
    }
  }

  /** Why a reply holds no JSON object that can be cut out. */
  datatype SliceError = NoObjectStart | NoObjectEnd | SliceOutOfOrder

  /** The span `[start, end)` from the first `{` through the last `}`
      inclusive. Rust's `&text[start..end]` panics when `end < start` (the
      last `}` lies before the first `{` with text between); that case is an
      error here. */
  function JsonObjectSpan(text: string): (r: Result<(nat, nat), SliceError>)
    ensures r == Failure(NoObjectStart) <==> '{' !in text
    ensures r == Failure(NoObjectEnd) <==> '{' in text && '}' !in text
    ensures r.Success? ==> var (s, e) := r.value;
      s < |text| && 0 < e <= |text| && s <= e &&
      text[s] == '{' && '{' !in text[..s] &&
      text[e - 1] == '}' && '}' !in text[e..]
    ensures r == Failure(SliceOutOfOrder) <==>
      '{' in text && '}' in text && LastIndexOf(text, '}').value + 1 < IndexOf(text, '{').value
  {
    match IndexOf(text, '{')
    case None => Failure(NoObjectStart)
    case Some(s) =>
      match LastIndexOf(text, '}')
      case None => Failure(NoObjectEnd)
      case Some(last) =>
        if last + 1 < s then Failure(SliceOutOfOrder) else Success((s, last + 1))
  }

  /** The text of the JSON object cut out of a model reply. */
  function ExtractJsonObject(text: string): (r: Result<string, SliceError>)
    ensures r.Success? ==> |r.value| <= |text|
    ensures r.Success? && |r.value| > 0 ==> r.value[0] == '{' && r.value[|r.value| - 1] == '}'
    ensures r.Failure? <==> JsonObjectSpan(text).Failure?
  {
    match JsonObjectSpan(text)
    case Failure(e) => Failure(e)
    case Success((s, e)) => Success(text[s..e])
  }
}
