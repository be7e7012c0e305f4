/** What a stretch of text is to the parser, told by the positions in it: where it ends, which runes
    it keeps, what a braced list reads as, and when a line has no value. */
module StrvalsText {
  import opened Prelude
  import opened Strvals
  import opened StrvalsRoundTrip
  import opened StrvalsEnd

  // ------------------------------------------------------------------ runes

  /** A rune is escaped by a backslash that is not escaped itself. */
  predicate Escaped(s: string, i: nat)
    requires i <= |s|
  {
    i > 0 && s[i - 1] == '\\' && !Escaped(s, i - 1)
  }

  /** The first n runes without the backslashes that escape. */
  function Kept(s: string, n: nat): string
    requires n <= |s|
  {
    if n == 0 then "" else Kept(s, n - 1) + if s[n - 1] == '\\' && !Escaped(s, n - 1) then "" else [s[n - 1]]
  }

  /** Position n is the first to hold one of these runes unescaped. */
  ghost predicate StopsAt(s: string, stop: set<char>, n: nat) {
    && n < |s| && s[n] in stop && !Escaped(s, n)
    && forall j | 0 <= j < n && s[j] in stop :: Escaped(s, j)
  }

  ghost predicate NeverStops(s: string, stop: set<char>) {
    forall j | 0 <= j < |s| && s[j] in stop :: Escaped(s, j)
  }

  /** Behind a rune that escapes nothing the text is read as if it began there. */
  lemma {:induction false} CutEscaped(s: string, m: nat, i: nat)
    requires m + i <= |s| && !Escaped(s, m)
    ensures Escaped(s[m..], i) == Escaped(s, m + i)
  {
    if i > 0 {
      CutEscaped(s, m, i - 1);
    }
  }

  lemma {:induction false} CutKept(s: string, m: nat, n: nat)
    requires m + n <= |s| && !Escaped(s, m)
    ensures Kept(s, m + n) == Kept(s, m) + Kept(s[m..], n)
  {
    hide Escaped;
    if n > 0 {
      CutKept(s, m, n - 1);
      CutEscaped(s, m, n - 1);
    }
  }

  lemma CutStops(s: string, stop: set<char>, m: nat, n: nat)
    requires m <= |s| && !Escaped(s, m) && forall j | 0 <= j < m && s[j] in stop :: Escaped(s, j)
    ensures StopsAt(s[m..], stop, n) <==> StopsAt(s, stop, m + n)
    ensures NeverStops(s[m..], stop) <==> NeverStops(s, stop)
  {
    hide Escaped;
    forall i: nat | m + i <= |s|
      ensures Escaped(s[m..], i) == Escaped(s, m + i)
    {
      CutEscaped(s, m, i);
    }
    assert forall j | 0 <= j < |s| - m :: s[m..][j] == s[m + j];
    assert forall j | m <= j < |s| :: s[j] == s[m..][j - m];
  }

  ghost predicate ReadsAt(s: string, stop: set<char>, r: Read, n: nat) {
    n < |s| && StopsAt(s, stop, n) && r == Read(Kept(s, n), Some(s[n]), s[n + 1..])
  }

  /** What is read of a text up to the first of these runes, or up to its end. */
  ghost predicate ReadsTo(s: string, stop: set<char>, r: Read) {
    if r.last.None? then NeverStops(s, stop) && r == Read(Kept(s, |s|), None, "")
    else exists n :: ReadsAt(s, stop, r, n)
  }

  /** Reading up to a stop rune ends at the first one that is not escaped, or at the end of the input,
      and keeps every rune before it but the backslashes that escape. */
  lemma {:induction false} RunesMean(s: string, stop: set<char>)
    requires '\\' !in stop
    ensures ReadsTo(s, stop, RunesUntil(s, stop))
    decreases |s|
  {
    if s != "" && s[0] in stop {
      assert ReadsAt(s, stop, RunesUntil(s, stop), 0);
    } else if s != "" && (s[0] != '\\' || |s| > 1) {
      var m := if s[0] == '\\' then 2 else 1;
      RunesMean(s[m..], stop);
      assert m == 2 ==> Escaped(s, 1);
      assert Kept(s, 0) == "" && (m == 2 ==> Kept(s, 1) == "");
      assert Kept(s, m) == [s[m - 1]];
      var r, inner := RunesUntil(s, stop), RunesUntil(s[m..], stop);
      assert r == inner.(text := [s[m - 1]] + inner.text);
      ReadsOn(s, stop, m, inner);
    }
  }

  lemma ReadsOn(s: string, stop: set<char>, m: nat, r: Read)
    requires 0 < m <= |s| && !Escaped(s, m) && forall j | 0 <= j < m && s[j] in stop :: Escaped(s, j)
    requires ReadsTo(s[m..], stop, r)
    ensures ReadsTo(s, stop, r.(text := Kept(s, m) + r.text))
  {
    hide Escaped, Kept, NeverStops, ReadsAt;
    if r.last.None? {
      CutStops(s, stop, m, 0);
      CutKept(s, m, |s| - m);
    } else {
      var n :| ReadsAt(s[m..], stop, r, n);
      ReadsOnAt(s, stop, m, r, n);
    }
  }

  lemma ReadsOnAt(s: string, stop: set<char>, m: nat, r: Read, n: nat)
    requires m <= |s| && !Escaped(s, m) && forall j | 0 <= j < m && s[j] in stop :: Escaped(s, j)
    requires ReadsAt(s[m..], stop, r, n)
    ensures ReadsAt(s, stop, r.(text := Kept(s, m) + r.text), m + n)
  {
    hide Escaped, Kept, StopsAt;
    CutStops(s, stop, m, n);
    CutKept(s, m, n);
    assert s[m..][n + 1..] == s[m + n + 1..];
  }

  /** A value that is no list runs to the first comma that is not escaped, or to the end. */
  lemma ValueMeans(s: string, st: bool)
    requires s != "" && s[0] != '{'
    ensures NeverStops(s, {','}) ==> ReadValue(s, st) == ValueRead(Some(TypedVal(Kept(s, |s|), st)), "", More)
    ensures forall n: nat :: n < |s| && StopsAt(s, {','}, n) ==> ReadValue(s, st) == ValueRead(Some(TypedVal(Kept(s, n), st)), s[n + 1..], More)
  {
    hide RunesUntil, TypedVal, Kept, Escaped;
    RunesMean(s, {','});
  }

  // ------------------------------------------------------------------ braced lists

  const INLIST: set<char> := {'\\', ',', '}'}

  /** The elements of a list, escaped and joined by commas. */
  function Joined(xs: seq<string>): string
    requires xs != []
  {
    EscapeIn(xs[0], INLIST) + if |xs| == 1 then "" else "," + Joined(xs[1..])
  }

  function Braced(xs: seq<string>): string
    requires xs != []
  {
    "{" + Joined(xs) + "}"
  }

  function PastComma(s: string): string {
    if s != "" && s[0] == ',' then s[1..] else s
  }

  function Elements(xs: seq<string>, st: bool): seq<Value> {
    seq(|xs|, j requires 0 <= j < |xs| => TypedVal(xs[j], st))
  }

  lemma {:induction false} ListReads(xs: seq<string>, rest: string, items: seq<Value>, st: bool)
    requires xs != []
    ensures ListRead(Joined(xs) + ("}" + rest), items, st) == ValueRead(Some(List(items + Elements(xs, st))), PastComma(rest), More)
    decreases |xs|
  {
    hide RunesUntil, EscapeIn, TypedVal;
    var s, x := Joined(xs) + ("}" + rest), EscapeIn(xs[0], INLIST);
    if |xs| == 1 {
      assert s == x + ("}" + rest);
      EscapedInReads(xs[0], INLIST, "}" + rest, {',', '}'});
      assert Elements(xs, st) == [TypedVal(xs[0], st)];
    } else {
      var more := Joined(xs[1..]) + ("}" + rest);
      assert s == x + ("," + more);
      EscapedInReads(xs[0], INLIST, "," + more, {',', '}'});
      ListReads(xs[1..], rest, items + [TypedVal(xs[0], st)], st);
      assert items + [TypedVal(xs[0], st)] + Elements(xs[1..], st) == items + Elements(xs, st);
    }
  }

  /** A braced list reads as its elements in their order, and takes one comma behind it along. With
      forced strings the elements are the very strings. */
  lemma BracedListReads(xs: seq<string>, rest: string, st: bool)
    requires xs != []
    ensures ReadValue(Braced(xs) + rest, st) == ValueRead(Some(List(Elements(xs, st))), PastComma(rest), More)
    ensures st ==> Elements(xs, st) == seq(|xs|, j requires 0 <= j < |xs| => Str(xs[j]))
  {
    hide ListRead, Joined;
    var s := Braced(xs) + rest;
    assert s[0] == '{' && s[1..] == Joined(xs) + ("}" + rest);
    ListReads(xs, rest, [], st);
    assert [] + Elements(xs, st) == Elements(xs, st);
  }

  /** A list fails exactly if no closing brace follows that is not escaped. */
  lemma ListFailsExactly(s: string, st: bool)
    ensures ReadValue("{" + s, st).end.Fail? <==> NeverStops(s, {'}'})
  {
    hide ListRead, NeverStops;
    assert ("{" + s)[1..] == s;
    ListEnds(s, [], st);
  }

  lemma {:induction false} ListEnds(s: string, items: seq<Value>, st: bool)
    ensures ListRead(s, items, st).end.Fail? <==> NeverStops(s, {'}'})
    decreases |s|
  {
    hide RunesUntil, TypedVal, Kept, Escaped;
    RunesMean(s, {',', '}'});
    var r := RunesUntil(s, {',', '}'});
    if r.last == Some(',') {
      var n: nat :| ReadsAt(s, {',', '}'}, r, n);
      StopEscapesNothing(s, n);
      CutStops(s, {'}'}, n + 1, 0);
      ListEnds(r.rest, items + [TypedVal(r.text, st)], st);
    }
  }

  lemma StopEscapesNothing(s: string, n: nat)
    requires n < |s| && s[n] != '\\'
    ensures !Escaped(s, n + 1)
  {
  }

  /** A list assigned under a path is written there whole, or the line fails where the path does not fit. */
  lemma BracedListIsWritten(p: Path, xs: seq<string>, rest: string, data: Entries, st: bool)
    requires p != [] && p[0].Field? && WellPath(p) && xs != []
    ensures var r := Key(PathText(p) + "=" + (Braced(xs) + rest), data, st);
            match Grow(Some(Map(data)), p, List(Elements(xs, st)))
            case Some(x) => x.Map? && r == KeyRead(x.entries, PastComma(rest), More)
            case None => r.end.Fail?
  {
    hide ReadValue, Key, Grow, PathText, Elements;
    BracedListReads(xs, rest, st);
    KeyGrows(p, Braced(xs) + rest, List(Elements(xs, st)), PastComma(rest), data, st);
  }

  /** The whole line k={...}. */
  lemma BracedLine(k: string, xs: seq<string>, data: Entries)
    requires k != "" && xs != []
    ensures Parse(PathText([Field(k)]) + "=" + Braced(xs), data, true) ==
              Parsed(data[k := List(seq(|xs|, j requires 0 <= j < |xs| => Str(xs[j])))], true)
  {
    hide Key, Braced, Grow, PathText;
    var p := [Field(k)];
    assert Elements(xs, true) == seq(|xs|, j requires 0 <= j < |xs| => Str(xs[j]));
    assert WellStep(p[0]) && p[1..] == [];
    BracedListIsWritten(p, xs, "", data, true);
    BracedListReads(xs, "", true);
    GrowAtKey(p, List(Elements(xs, true)), data);
    GrowNothing(if k in data then Some(data[k]) else None, List(Elements(xs, true)));
    assert PathText(p) + "=" + (Braced(xs) + "") == PathText(p) + "=" + Braced(xs);
    ParseEmpty(data[k := List(Elements(xs, true))], true);
  }

  // ------------------------------------------------------------------ keys without a value

  /** Where a path is not followed by an equals sign but by a comma, nothing can be set: the parser
      stops there. A plain key has been given an empty value by then. */
  lemma {:induction false} NoValueFails(p: Path, rest: string, data: Entries, st: bool)
    requires p != [] && p[0].Field? && WellPath(p)
    ensures Key(PathText(p) + ("," + rest), data, st).end.Fail? && !Parse(PathText(p) + ("," + rest), data, st).ok
    ensures |p| == 1 ==> Parse(PathText(p) + ("," + rest), data, st).data == data[p[0].key := Str("")]
    decreases |p|, 0
  {
    hide RunesUntil, ParseInt, ReadValue, Escape, Decimal, Steps, PathText, Key, Item;
    var tail, k, q := "," + rest, p[0].key, p[1..];
    var s := PathText(p) + tail;
    KeyStops(p, tail);
    assert WellStep(p[0]) && WellPath(q);
    if q == [] {
      KeyAtComma(s, data, st, k, rest);
    } else if q[0].Field? {
      KeyAtDot(s, data, st, k, PathText(q) + tail);
      NoValueFails(q, rest, if k in data && data[k].Map? then data[k].entries else map[], st);
    } else {
      assert WellStep(q[0]) && WellPath(q[1..]);
      IndexReads(q[0].i, Steps(q[1..]) + tail);
      KeyAtBracket(s, data, st, k, Decimal(q[0].i) + ("]" + (Steps(q[1..]) + tail)), q[0].i, Steps(q[1..]) + tail);
      NoItemFails(q[1..], rest, if k in data && data[k].List? then data[k].items else [], q[0].i, st);
    }
  }

  lemma KeyAtComma(s: string, data: Entries, st: bool, k: string, rest: string)
    requires RunesUntil(s, KEYEND) == Read(k, Some(','), rest) && k != ""
    ensures Key(s, data, st) == KeyRead(data[k := Str("")], rest, Fail)
  {
    hide RunesUntil;
  }

  lemma {:induction false} NoItemFails(q: Path, rest: string, list: seq<Value>, i: nat, st: bool)
    requires WellPath(q)
    ensures var r := Item(Steps(q) + ("," + rest), list, i, st); r.end.Fail? || r.end.Panic?
    decreases |q|, 1
  {
    hide ParseInt, ReadValue, Escape, Decimal, Key, Item, PathText;
    var tail := "," + rest;
    var s := Steps(q) + tail;
    if q == [] {
      assert s == tail;
      ItemAtComma(s, list, i, st);
    } else {
      hide Steps, RunesUntil;
      StepsTail(q, tail);
      assert WellStep(q[0]) && WellPath(q[1..]);
      if q[0].Field? {
        assert s[1..] == PathText(q) + tail;
        ItemAtDot(s, list, i, st);
        NoValueFails(q, rest, if i < |list| && list[i].Map? then list[i].entries else map[], st);
      } else {
        assert s[1..] == Decimal(q[0].i) + ("]" + (Steps(q[1..]) + tail));
        IndexReads(q[0].i, Steps(q[1..]) + tail);
        ItemAtBracket(s, list, i, st, q[0].i, Steps(q[1..]) + tail);
        NoItemFails(q[1..], rest, if i < |list| && list[i].List? then list[i].items else [], q[0].i, st);
      }
    }
  }

  lemma ItemAtComma(s: string, list: seq<Value>, i: nat, st: bool)
    requires s != "" && s[0] == ','
    ensures Item(s, list, i, st).end.Fail?
  {
  }

  // ------------------------------------------------------------------ literals

  /** Without forced strings: true, false and null in any case, and the numbers of 64 bits; any
      other text is itself. */
  lemma LiteralsAre(s: string)
    ensures TypedVal(s, false) == Bool(true) <==>
              |s| == 4 && s[0] in {'t', 'T'} && s[1] in {'r', 'R'} && s[2] in {'u', 'U'} && s[3] in {'e', 'E'}
    ensures TypedVal(s, false) == Bool(false) <==>
              |s| == 5 && s[0] in {'f', 'F'} && s[1] in {'a', 'A'} && s[2] in {'l', 'L'} && s[3] in {'s', 'S', '\U{017F}'} && s[4] in {'e', 'E'}
    ensures TypedVal(s, false) == Null <==>
              |s| == 4 && s[0] in {'n', 'N'} && s[1] in {'u', 'U'} && s[2] in {'l', 'L'} && s[3] in {'l', 'L'}
    ensures var v := TypedVal(s, false);
            v.Bool? || v.Null? || v == Str(s) || (v.Int? && -MAXINT - 1 <= v.i <= MAXINT && (s == "0" || s[0] != '0'))
  {
    hide Digits, Fold;
    FoldsTo();
    FoldedIs(s, "true");
    FoldedIs(s, "false");
    FoldedIs(s, "null");
  }

  lemma FoldsTo()
    ensures forall c :: Fold(c) == 't' <==> c in {'t', 'T'}
    ensures forall c :: Fold(c) == 'r' <==> c in {'r', 'R'}
    ensures forall c :: Fold(c) == 'u' <==> c in {'u', 'U'}
    ensures forall c :: Fold(c) == 'e' <==> c in {'e', 'E'}
    ensures forall c :: Fold(c) == 'f' <==> c in {'f', 'F'}
    ensures forall c :: Fold(c) == 'a' <==> c in {'a', 'A'}
    ensures forall c :: Fold(c) == 'l' <==> c in {'l', 'L'}
    ensures forall c :: Fold(c) == 's' <==> c in {'s', 'S', '\U{017F}'}
    ensures forall c :: Fold(c) == 'n' <==> c in {'n', 'N'}
  {
  }

  lemma FoldedIs(s: string, t: string)
    requires |t| >= 4 && forall i :: 0 <= i < |t| ==> Fold(t[i]) == t[i]
    ensures EqualFold(s, t) <==>
              && |s| == |t| && Fold(s[0]) == t[0] && Fold(s[1]) == t[1] && Fold(s[2]) == t[2] && Fold(s[3]) == t[3]
              && forall i :: 4 <= i < |t| ==> Fold(s[i]) == t[i]
  {
  }

  /** A number is digits, of whatever length, behind at most one sign, and lies within 64 bits. */
  lemma NumbersAre(s: string)
    ensures var signed := s != "" && s[0] in {'-', '+'};
            var digits := if signed then s[1..] else s;
            && (Digits(digits).Some? <==> AllDigits(digits))
            && (ParseInt(s).Some? <==>
                 && digits != "" && AllDigits(digits)
                 && Digits(digits).value <= if signed && s[0] == '-' then MAXINT + 1 else MAXINT)
            && (ParseInt(s).Some? ==> ParseInt(s).value == if signed && s[0] == '-' then 0 - Digits(digits).value else Digits(digits).value)
  {
    hide Digits, AllDigits;
    DigitsOfDigits(s);
    if s != "" {
      DigitsOfDigits(s[1..]);
    }
  }

  lemma {:induction false} DigitsOfDigits(s: string)
    ensures Digits(s).Some? <==> AllDigits(s)
  {
    if s != "" {
      DigitsOfDigits(s[..|s| - 1]);
      assert s == s[..|s| - 1] + [s[|s| - 1]];
    }
  }

  /** What digits stand for: their decimal number, leading zeros aside. */
  lemma {:induction false} LeadingZeros(s: string)
    requires AllDigits(s)
    ensures Digits("0" + s) == Digits(s)
  {
    DigitsOfDigits(s);
    if s == "" {
      assert ("0" + s)[..0] == "" && ("0" + s)[0] == '0';
    } else {
      var n := |s| - 1;
      LeadingZeros(s[..n]);
      assert ("0" + s)[..n + 1] == "0" + s[..n] && ("0" + s)[n + 1] == s[n];
    }
  }
}
