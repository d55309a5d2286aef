/** The scanner of `getRandomBase64`: it walks a JSON array of strings
    character by character, tracking whether it is inside a string literal,
    whether the previous character was a backslash, and how many top-level
    commas it has passed, and returns the raw text of the k-th string. The
    source reads the file in 1024-byte chunks; every piece of scan state
    lives outside the chunk loop, so one pass over the whole buffer is the
    same walk. */
module MediaScan {
  import opened Wrappers

  datatype ScanState = ScanState(index: nat, inQuote: bool, escaping: bool, itemStart: Option<nat>)

  const Initial := ScanState(0, false, false, None)

  /** The walk from position `pos` on; `Some((start, end))` delimits the
      content of the wanted string, `None` means the buffer ran out. */
  function ScanFrom(buf: seq<char>, pos: nat, st: ScanState, k: nat): (res: Option<(nat, nat)>)
    requires pos <= |buf|
    requires st.itemStart.Some? ==> st.itemStart.value <= pos
    ensures res.Some? ==> res.value.0 <= res.value.1 < |buf| && buf[res.value.1] == '"'
    decreases |buf| - pos
  {
    if pos == |buf| then None
    else
      var c := buf[pos];
      if st.escaping then ScanFrom(buf, pos + 1, st.(escaping := false), k)
      else if c == '\\' then ScanFrom(buf, pos + 1, st.(escaping := true), k)
      else if c == '"' then
        var q := !st.inQuote;
        if q && st.itemStart.None? && st.index == k then
          ScanFrom(buf, pos + 1, st.(inQuote := q, itemStart := Some(pos + 1)), k)
        else if !q && st.itemStart.Some? then Some((st.itemStart.value, pos))
        else ScanFrom(buf, pos + 1, st.(inQuote := q), k)
      else if !st.inQuote && c == ',' then ScanFrom(buf, pos + 1, st.(index := st.index + 1), k)
      else ScanFrom(buf, pos + 1, st, k)
  }

  /** The text between the delimiters the walk found, or "" when it found
      none. */
  function ItemText(buf: seq<char>, found: Option<(nat, nat)>): string
    requires found.Some? ==> found.value.0 <= found.value.1 <= |buf|
  {
    match found
    case None => ""
    case Some((a, b)) => buf[a..b]
  }

  /** The k-th string of the array whose '[' sits at `start`, as the source
      returns it: the raw characters between the quotes, escapes included,
      or "" when the buffer ends first. */
  function ReadItem(buf: seq<char>, start: nat, k: nat): string
  {
    if start + 1 > |buf| then "" else ItemText(buf, ScanFrom(buf, start + 1, Initial, k))
  }

  /** The scan loop as the source writes it, over the buffer in one pass. */
  method ScanItem(buf: seq<char>, start: nat, k: nat) returns (item: string)
    ensures item == ReadItem(buf, start, k)
  {
    if start + 1 > |buf| {
      return "";
    }
    var currentIndex: nat := 0;
    var inQuote := false;
    var escaping := false;
    var itemStart: int := -1;
    var itemEnd: int := -1;
    var pos := start + 1;
    while pos < |buf|
      invariant start + 1 <= pos <= |buf|
      invariant -1 <= itemStart <= pos
      invariant itemEnd == -1
      invariant var st := ScanState(currentIndex, inQuote, escaping, if itemStart == -1 then None else Some(itemStart as nat));
        ScanFrom(buf, pos, st, k) == ScanFrom(buf, start + 1, Initial, k)
      decreases |buf| - pos
    {
      var c := buf[pos];
      if escaping {
        escaping := false;
      } else if c == '\\' {
        escaping := true;
      } else if c == '"' {
        inQuote := !inQuote;
        if inQuote && itemStart == -1 && currentIndex == k {
          itemStart := pos + 1;
        } else if !inQuote && itemStart != -1 {
          itemEnd := pos;
          break;
        }
      } else if !inQuote && c == ',' {
        currentIndex := currentIndex + 1;
      }
      pos := pos + 1;
    }
    if itemStart == -1 || itemEnd == -1 {
      return "";
    }
    item := buf[itemStart..itemEnd];
  }

  // ---------------------------------------------------------------------
  // Round trip over an encoded array

  /** A string literal's body in which every '"' and '\\' is escaped by a
      preceding backslash. */
  predicate WellEscaped(s: string)
    decreases |s|
  {
    if |s| == 0 then true
    else if s[0] == '\\' then |s| >= 2 && WellEscaped(s[2..])
    else s[0] != '"' && WellEscaped(s[1..])
  }

  /** JSON escaping of the two characters that matter to the scanner. */
  function Escape(s: string): (e: string)
    ensures WellEscaped(e)
  {
    if |s| == 0 then ""
    else
      var head := if s[0] == '"' || s[0] == '\\' then ['\\', s[0]] else [s[0]];
      var e := head + Escape(s[1..]);
      assert head == [s[0]] ==> e[1..] == Escape(s[1..]);
      assert |head| == 2 ==> e[2..] == Escape(s[1..]);
      e
  }

  /** A string without '"' or '\\' needs no escaping. */
  lemma {:induction false} PlainIsWellEscaped(s: string)
    requires '"' !in s && '\\' !in s
    ensures WellEscaped(s) && Escape(s) == s
  {
    if |s| > 0 {
      PlainIsWellEscaped(s[1..]);
    }
  }

  function Quote(s: string): string
  {
    "\"" + s + "\""
  }

  /** The elements of a JSON array of strings, separated by commas. */
  function Items(ss: seq<string>): string
  {
    if |ss| == 0 then ""
    else if |ss| == 1 then Quote(ss[0])
    else Quote(ss[0]) + "," + Items(ss[1..])
  }

  /** `JSON.stringify` of an array of (already escaped) string bodies. */
  function Encode(ss: seq<string>): string
  {
    "[" + Items(ss) + "]"
  }

  /** A slice of a window that holds `x` is the matching slice of `x`. */
  lemma SliceOfWindow(buf: seq<char>, p: nat, x: string, a: nat, b: nat)
    requires p + |x| <= |buf| && buf[p..p + |x|] == x
    requires a <= b <= |x|
    ensures buf[p + a..p + b] == x[a..b]
  {
    forall t | 0 <= t < b - a
      ensures buf[p + a..p + b][t] == x[a..b][t]
    {
      assert buf[p + a..p + b][t] == buf[p..p + |x|][a + t];
    }
  }

  /** Inside a literal, a well-escaped body leaves the scan state as it
      found it: escapes never toggle the quote state and commas are not
      counted. */
  lemma {:induction false} BodyKeepsState(buf: seq<char>, pos: nat, s: string, st: ScanState, k: nat)
    requires WellEscaped(s) && pos + |s| <= |buf| && buf[pos..pos + |s|] == s
    requires st.inQuote && !st.escaping
    requires st.itemStart.Some? ==> st.itemStart.value <= pos
    ensures ScanFrom(buf, pos, st, k) == ScanFrom(buf, pos + |s|, st, k)
    decreases |s|
  {
    if |s| > 0 {
      assert buf[pos] == s[0];
      if s[0] == '\\' {
        assert buf[pos + 2..pos + |s|] == s[2..];
        BodyKeepsState(buf, pos + 2, s[2..], st, k);
      } else {
        assert buf[pos + 1..pos + |s|] == s[1..];
        BodyKeepsState(buf, pos + 1, s[1..], st, k);
      }
    }
  }

  /** Walking one quoted element: it is the wanted one exactly when the
      comma count equals `k`. */
  lemma OneElement(buf: seq<char>, pos: nat, s: string, i: nat, k: nat)
    requires WellEscaped(s) && pos + |s| + 2 <= |buf| && buf[pos..pos + |s| + 2] == Quote(s)
    ensures i == k ==> ScanFrom(buf, pos, ScanState(i, false, false, None), k) == Some((pos + 1, pos + 1 + |s|))
                       && buf[pos + 1..pos + 1 + |s|] == s
    ensures i != k ==> ScanFrom(buf, pos, ScanState(i, false, false, None), k)
                       == ScanFrom(buf, pos + |s| + 2, ScanState(i, false, false, None), k)
  {
    var q := Quote(s);
    assert buf[pos] == q[0];
    SliceOfWindow(buf, pos, q, 1, 1 + |s|);
    assert q[1..1 + |s|] == s;
    assert buf[pos + 1 + |s|] == q[1 + |s|];
    if i == k {
      BodyKeepsState(buf, pos + 1, s, ScanState(i, true, false, Some(pos + 1)), k);
    } else {
      BodyKeepsState(buf, pos + 1, s, ScanState(i, true, false, None), k);
    }
  }

  /** A comma between elements advances the count. */
  lemma CommaStep(buf: seq<char>, pos: nat, i: nat, k: nat)
    requires pos < |buf| && buf[pos] == ','
    ensures ScanFrom(buf, pos, ScanState(i, false, false, None), k)
            == ScanFrom(buf, pos + 1, ScanState(i + 1, false, false, None), k)
  {
  }

  /** With no '"' left, the walk cannot find an element. */
  lemma {:induction false} NoQuoteNoItem(buf: seq<char>, pos: nat, st: ScanState, k: nat)
    requires pos <= |buf| && '"' !in buf[pos..]
    requires st.itemStart.Some? ==> st.itemStart.value <= pos
    ensures ScanFrom(buf, pos, st, k) == None
    decreases |buf| - pos
  {
    if pos < |buf| {
      assert buf[pos] == buf[pos..][0];
      assert buf[pos + 1..] == buf[pos..][1..];
      var c := buf[pos];
      if st.escaping {
        NoQuoteNoItem(buf, pos + 1, st.(escaping := false), k);
      } else if c == '\\' {
        NoQuoteNoItem(buf, pos + 1, st.(escaping := true), k);
      } else if !st.inQuote && c == ',' {
        NoQuoteNoItem(buf, pos + 1, st.(index := st.index + 1), k);
      } else {
        NoQuoteNoItem(buf, pos + 1, st, k);
      }
    }
  }

  /** The text of a non-empty array's elements: the first one quoted, then
      a comma and the rest when more follow. */
  lemma ItemsParts(ss: seq<string>)
    requires |ss| > 0
    ensures var q := Quote(ss[0]); var all := Items(ss);
      && |q| <= |all| && all[..|q|] == q
      && (|ss| == 1 ==> |all| == |q|)
      && (|ss| > 1 ==> |all| == |q| + 1 + |Items(ss[1..])| && all[|q|] == ','
                       && all[|q| + 1..|all|] == Items(ss[1..]))
  {
    var q := Quote(ss[0]);
    if |ss| > 1 {
      var rest := Items(ss[1..]);
      assert Items(ss) == q + "," + rest;
      assert (q + "," + rest)[|q| + 1..|q| + 1 + |rest|] == rest;
    }
  }

  /** The window of a leading element holds its quoted text, and nothing
      more when it is the last one. */
  lemma LeadingElement(buf: seq<char>, pos: nat, ss: seq<string>)
    requires |ss| > 0
    requires pos + |Items(ss)| <= |buf| && buf[pos..pos + |Items(ss)|] == Items(ss)
    ensures pos + |ss[0]| + 2 <= |buf| && buf[pos..pos + |ss[0]| + 2] == Quote(ss[0])
    ensures |ss| == 1 ==> pos + |Items(ss)| == pos + |ss[0]| + 2
  {
    ItemsParts(ss);
    SliceOfWindow(buf, pos, Items(ss), 0, |Quote(ss[0])|);
  }

  /** When more elements follow the leading one, a comma and the window of
      the rest come after it. */
  lemma FollowingElements(buf: seq<char>, pos: nat, ss: seq<string>)
    requires |ss| > 1
    requires pos + |Items(ss)| <= |buf| && buf[pos..pos + |Items(ss)|] == Items(ss)
    ensures var after := pos + |ss[0]| + 2;
      var rest := Items(ss[1..]);
      after + 1 + |rest| == pos + |Items(ss)| && buf[after] == ','
      && buf[after + 1..after + 1 + |rest|] == rest
  {
    var q := Quote(ss[0]);
    var all := Items(ss);
    ItemsParts(ss);
    assert buf[pos + |q|] == buf[pos..pos + |all|][|q|];
    SliceOfWindow(buf, pos, all, |q| + 1, |all|);
    assert pos + |ss[0]| + 2 == pos + |q|;
  }

  /** The elements `ss` are laid out at `pos` of `buf`, and no '"' follows
      them. */
  predicate Framed(buf: seq<char>, pos: nat, ss: seq<string>)
  {
    pos + |Items(ss)| <= |buf| && buf[pos..pos + |Items(ss)|] == Items(ss)
    && '"' !in buf[pos + |Items(ss)|..]
  }

  predicate AllEscaped(ss: seq<string>)
  {
    forall j | 0 <= j < |ss| :: WellEscaped(ss[j])
  }

  /** What the walk finds from `pos` with comma count `i`. */
  function Found(buf: seq<char>, pos: nat, i: nat, k: nat): string
    requires pos <= |buf|
  {
    ItemText(buf, ScanFrom(buf, pos, ScanState(i, false, false, None), k))
  }

  /** The element the walk should find: the one `k - i` commas on, or "". */
  function Wanted(ss: seq<string>, i: nat, k: nat): string
    requires i <= k
  {
    if k - i < |ss| then ss[k - i] else ""
  }

  /** Walking the elements of an array from comma count `i`: the wanted
      element is found when it exists, and nothing is found otherwise. */
  lemma {:induction false} ElementsRoundTrip(buf: seq<char>, pos: nat, ss: seq<string>, i: nat, k: nat)
    requires AllEscaped(ss) && i <= k && Framed(buf, pos, ss)
    ensures Found(buf, pos, i, k) == Wanted(ss, i, k)
    decreases |ss|
  {
    if |ss| == 0 {
      NoQuoteNoItem(buf, pos, ScanState(i, false, false, None), k);
    } else if i == k || |ss| == 1 {
      LastOrWanted(buf, pos, ss, i, k);
    } else {
      SkipElement(buf, pos, ss, i, k);
      RestFramed(buf, pos, ss);
      ElementsRoundTrip(buf, pos + |ss[0]| + 3, ss[1..], i + 1, k);
      ShiftedIndex(ss, i, k);
    }
  }

  /** The elements after the first one are framed right after the comma
      that follows it, and are all well escaped. */
  lemma RestFramed(buf: seq<char>, pos: nat, ss: seq<string>)
    requires |ss| > 1 && AllEscaped(ss) && Framed(buf, pos, ss)
    ensures AllEscaped(ss[1..]) && Framed(buf, pos + |ss[0]| + 3, ss[1..])
  {
    FollowingElements(buf, pos, ss);
    assert forall j | 0 <= j < |ss[1..]| :: WellEscaped(ss[1..][j]);
  }

  /** Counting one more comma and dropping the first element names the same
      wanted element. */
  lemma ShiftedIndex(ss: seq<string>, i: nat, k: nat)
    requires |ss| > 0 && i < k
    ensures Wanted(ss[1..], i + 1, k) == Wanted(ss, i, k)
  {
  }

  /** The first element is the wanted one, or it is the only one left and
      not wanted. */
  lemma LastOrWanted(buf: seq<char>, pos: nat, ss: seq<string>, i: nat, k: nat)
    requires |ss| > 0 && AllEscaped(ss) && (i == k || |ss| == 1) && i <= k
    requires Framed(buf, pos, ss)
    ensures Found(buf, pos, i, k) == Wanted(ss, i, k)
  {
    var s := ss[0];
    assert WellEscaped(s);
    LeadingElement(buf, pos, ss);
    OneElement(buf, pos, s, i, k);
    if i != k {
      NoQuoteNoItem(buf, pos + |s| + 2, ScanState(i, false, false, None), k);
    }
  }

  /** Passing an unwanted element and the comma after it. */
  lemma SkipElement(buf: seq<char>, pos: nat, ss: seq<string>, i: nat, k: nat)
    requires |ss| > 1 && AllEscaped(ss) && i != k
    requires Framed(buf, pos, ss)
    ensures Found(buf, pos, i, k) == Found(buf, pos + |ss[0]| + 3, i + 1, k)
  {
    assert WellEscaped(ss[0]);
    LeadingElement(buf, pos, ss);
    FollowingElements(buf, pos, ss);
    SkipQuoted(buf, pos, ss[0], i, k);
  }

  /** An unwanted quoted string followed by a comma leaves the walk one
      comma further on. */
  lemma SkipQuoted(buf: seq<char>, pos: nat, s: string, i: nat, k: nat)
    requires WellEscaped(s) && i != k
    requires pos + |s| + 2 < |buf| && buf[pos..pos + |s| + 2] == Quote(s) && buf[pos + |s| + 2] == ','
    ensures ScanFrom(buf, pos, ScanState(i, false, false, None), k)
            == ScanFrom(buf, pos + |s| + 3, ScanState(i + 1, false, false, None), k)
  {
    OneElement(buf, pos, s, i, k);
    CommaStep(buf, pos + |s| + 2, i, k);
  }

  /** Scanner round trip: in an encoded array of well-escaped string bodies,
      index k yields the k-th body and an index past the end yields "". */
  lemma RoundTrip(ss: seq<string>, k: nat)
    requires forall j | 0 <= j < |ss| :: WellEscaped(ss[j])
    ensures ReadItem(Encode(ss), 0, k) == if k < |ss| then ss[k] else ""
  {
    var buf := Encode(ss);
    assert buf[1..1 + |Items(ss)|] == Items(ss);
    assert buf[1 + |Items(ss)|..] == "]";
    ElementsRoundTrip(buf, 1, ss, 0, k);
    assert Found(buf, 1, 0, k) == ReadItem(buf, 0, k);
  }

  /** The same for the plain strings a base64 media file holds, which need no
      escaping. */
  lemma PlainRoundTrip(ss: seq<string>, k: nat)
    requires forall j | 0 <= j < |ss| :: '"' !in ss[j] && '\\' !in ss[j]
    ensures ReadItem(Encode(ss), 0, k) == if k < |ss| then ss[k] else ""
  {
    forall j | 0 <= j < |ss| ensures WellEscaped(ss[j]) { PlainIsWellEscaped(ss[j]); }
    RoundTrip(ss, k);
  }
}
