/** Values of pkg/util/values/values.go: maps merged over each other, and single values set by
    a line with escaped commas. */
module Values {
  import opened Prelude
  import opened Strvals
  import opened StrvalsRoundTrip
  import opened StrvalsEnd

  // ------------------------------------------------------------------ merging

  /** Maps merge, and otherwise the right side wins. */
  function Merge(a: Entries, b: Entries): (r: Entries)
    ensures r.Keys == a.Keys + b.Keys
    decreases Map(b)
  {
    map k | k in a.Keys + b.Keys ::
      if k !in b then a[k]
      else if k in a && a[k].Map? && b[k].Map? then Map(Merge(a[k].entries, b[k].entries))
      else b[k]
  }

  /** The two loops of MergeMaps; a map is gone through in no particular order. */
  method MergeMaps(a: Entries, b: Entries) returns (out: Entries)
    ensures out == Merge(a, b)
    decreases Map(b)
  {
    out := a;
    var keys := b.Keys;
    while keys != {}
      invariant keys <= b.Keys && out.Keys == a.Keys + (b.Keys - keys)
      invariant forall k :: k in out ==> out[k] == if k in b.Keys - keys then Merge(a, b)[k] else a[k]
    {
      var k: string :| k in keys;
      keys := keys - {k};
      if k in out && out[k].Map? && b[k].Map? {
        var inner := MergeMaps(out[k].entries, b[k].entries);
        out := out[k := Map(inner)];
      } else {
        out := out[k := b[k]];
      }
    }
  }

  /** Merging a map with itself or with nothing, on either side, changes nothing. */
  lemma {:induction false} MergeIsIdempotent(a: Entries)
    ensures Merge(a, a) == a && Merge(a, map[]) == a && Merge(map[], a) == a
    decreases Map(a)
  {
    forall k | k in a ensures Merge(a, a)[k] == a[k] {
      if a[k].Map? {
        MergeIsIdempotent(a[k].entries);
      }
    }
  }

  /** z has something wherever x has. */
  predicate Covers(z: Entries, x: Entries)
    decreases Map(x)
  {
    forall k | k in x :: k in z && (x[k].Map? && z[k].Map? ==> Covers(z[k].entries, x[k].entries))
  }

  lemma {:induction false} CoveredIsLost(x: Entries, z: Entries)
    ensures Merge(x, z) == z <==> Covers(z, x)
    decreases Map(z)
  {
    forall k | k in x && k in z && x[k].Map? && z[k].Map?
      ensures Merge(x[k].entries, z[k].entries) == z[k].entries <==> Covers(z[k].entries, x[k].entries)
    {
      CoveredIsLost(x[k].entries, z[k].entries);
    }
    if Merge(x, z) == z {
      forall k | k in x ensures k in z && (x[k].Map? && z[k].Map? ==> Covers(z[k].entries, x[k].entries)) {
        assert k in Merge(x, z);
      }
    }
  }

  /** Wherever the three hold a map, something else and a map, the last covers the first. */
  predicate Harmless(a: Entries, b: Entries, c: Entries)
    decreases Map(c)
  {
    forall k | k in c && k in a && k in b && a[k].Map? && c[k].Map? ::
      if b[k].Map? then Harmless(a[k].entries, b[k].entries, c[k].entries)
      else Covers(c[k].entries, a[k].entries)
  }

  /** Merging is associative exactly there. */
  lemma {:induction false} MergeIsAssociative(a: Entries, b: Entries, c: Entries)
    ensures Merge(Merge(a, b), c) == Merge(a, Merge(b, c)) <==> Harmless(a, b, c)
    decreases Map(c), 1
  {
    var l, r := Merge(Merge(a, b), c), Merge(a, Merge(b, c));
    assert l.Keys == r.Keys;
    forall k | k in l
      ensures l[k] == r[k] <==> (k in a && k in b && k in c && a[k].Map? && c[k].Map? ==>
                if b[k].Map? then Harmless(a[k].entries, b[k].entries, c[k].entries) else Covers(c[k].entries, a[k].entries))
    {
      AssociativeAt(a, b, c, k);
    }
  }

  lemma {:induction false} AssociativeAt(a: Entries, b: Entries, c: Entries, k: string)
    requires k in a || k in b || k in c
    ensures Merge(Merge(a, b), c)[k] == Merge(a, Merge(b, c))[k] <==> (k in a && k in b && k in c && a[k].Map? && c[k].Map? ==>
              if b[k].Map? then Harmless(a[k].entries, b[k].entries, c[k].entries) else Covers(c[k].entries, a[k].entries))
    decreases Map(c), 0
  {
    if k in a && k in b && k in c && a[k].Map? && c[k].Map? {
      if b[k].Map? {
        MergeIsAssociative(a[k].entries, b[k].entries, c[k].entries);
      } else {
        CoveredIsLost(a[k].entries, c[k].entries);
      }
    }
  }

  // ------------------------------------------------------------------ paths of keys

  predicate AllKeys(p: Path) {
    forall step | step in p :: step.Field?
  }

  function Get(m: Entries, p: Path): Option<Value> {
    At(Some(Map(m)), p)
  }

  /** Some proper prefix of the path ends in something that is not a map. */
  ghost predicate Blocked(m: Entries, p: Path) {
    exists j :: 0 < j < |p| && Get(m, p[..j]).Some? && !Get(m, p[..j]).value.Map?
  }

  /** The path law: at every path the right side wins; maps on both sides merge; where the right
      side says nothing the left side shows, unless the right side has a leaf on the way. */
  lemma {:induction false} MergeAtPath(a: Entries, b: Entries, p: Path)
    requires p != [] && AllKeys(p)
    ensures Get(Merge(a, b), p) ==
      match Get(b, p)
      case Some(Map(y)) =>
        (match Get(a, p) case Some(Map(x)) => Some(Map(Merge(x, y))) case _ => Some(Map(y)))
      case Some(y) => Some(y)
      case None => if Blocked(b, p) then None else Get(a, p)
    decreases |p|
  {
    var k, q := p[0].key, p[1..];
    assert p[0] in p && forall step :: step in q ==> step in p;
    GetNext(Merge(a, b), p);
    GetNext(a, p);
    GetNext(b, p);
    if q == [] {
    } else if k in b {
      if b[k].Map? {
        BlockedNext(b, p);
        if k in a && a[k].Map? {
          MergeAtPath(a[k].entries, b[k].entries, q);
        } else {
          NothingBelow(a, p);
        }
      } else {
        NothingBelow(b, p);
        GetNext(b, p[..1]);
        assert p[..1][1..] == [];
      }
    } else {
      NotBlocked(b, p);
    }
  }

  /** A path goes on below its first key. */
  lemma GetNext(m: Entries, p: Path)
    requires p != [] && p[0].Field?
    ensures var k, q := p[0].key, p[1..];
            Get(m, p) == if k !in m then None
                         else if q == [] then Some(m[k])
                         else if m[k].Map? then Get(m[k].entries, q)
                         else if q[0].Field? then None
                         else At(Some(m[k]), q)
  {
    var k, q := p[0].key, p[1..];
    if k in m {
      assert Get(m, p) == At(Some(m[k]), q);
    }
  }

  lemma BlockedNext(m: Entries, p: Path)
    requires |p| > 1 && AllKeys(p) && p[0].Field? && p[0].key in m && m[p[0].key].Map?
    ensures Blocked(m, p) <==> Blocked(m[p[0].key].entries, p[1..])
  {
    var k, q := p[0].key, p[1..];
    if Blocked(m, p) {
      var j :| 0 < j < |p| && Get(m, p[..j]).Some? && !Get(m, p[..j]).value.Map?;
      GetNext(m, p[..j]);
      assert p[..j][1..] == q[..j - 1];
      assert j > 1;
    }
    if Blocked(m[k].entries, q) {
      var j :| 0 < j < |q| && Get(m[k].entries, q[..j]).Some? && !Get(m[k].entries, q[..j]).value.Map?;
      GetNext(m, p[..j + 1]);
      assert p[..j + 1][1..] == q[..j];
    }
  }

  lemma NothingBelow(a: Entries, p: Path)
    requires |p| > 1 && AllKeys(p) && p[0].Field? && (p[0].key in a ==> !a[p[0].key].Map?)
    ensures Get(a, p).None?
  {
    GetNext(a, p);
    assert p[1..][0] in p;
  }

  lemma NotBlocked(b: Entries, p: Path)
    requires p != [] && p[0].Field? && p[0].key !in b
    ensures !Blocked(b, p)
  {
    forall j | 0 < j < |p| ensures Get(b, p[..j]).None? {
      GetNext(b, p[..j]);
    }
  }

  // ------------------------------------------------------------------ escaped commas

  /** What Values does to a value before it is parsed. */
  function EscapeCommas(v: string): string {
    if v == "" then "" else (if v[0] == ',' then "\\," else [v[0]]) + EscapeCommas(v[1..])
  }

  predicate NoBackslash(v: string) {
    '\\' !in v
  }

  lemma {:induction false} CommasRead(v: string)
    requires NoBackslash(v)
    ensures RunesUntil(EscapeCommas(v), {','}) == Read(v, None, "")
  {
    if v != "" {
      CommasRead(v[1..]);
      var more := EscapeCommas(v[1..]);
      if v[0] == ',' {
        assert EscapeCommas(v) == ['\\', ','] + more && EscapeCommas(v)[2..] == more;
      } else {
        assert EscapeCommas(v)[1..] == more;
      }
    }
  }

  /** How many runes a text stands for. */
  function Weight(s: string): nat {
    if s == "" then 0
    else if s[0] == '\\' then (if |s| == 1 then 0 else 1 + Weight(s[2..]))
    else 1 + Weight(s[1..])
  }

  lemma {:induction false} ReadWeighs(s: string, stop: set<char>)
    requires '\\' !in stop
    ensures var r := RunesUntil(s, stop);
            |r.text| + Weight(r.rest) + (if r.last.Some? then 1 else 0) == Weight(s)
    decreases |s|
  {
    if s != "" && s[0] !in stop {
      if s[0] == '\\' && |s| > 1 {
        ReadWeighs(s[2..], stop);
      } else if s[0] != '\\' {
        ReadWeighs(s[1..], stop);
      }
    }
  }

  /** A backslash is lost on the way. */
  lemma {:induction false} BackslashIsLost(v: string)
    ensures var t := RunesUntil(EscapeCommas(v), {','}).text;
            |t| <= |v| && (!NoBackslash(v) ==> |t| < |v|)
    ensures Weight(EscapeCommas(v)) <= |v|
    decreases |v|
  {
    if v != "" && v[0] != '\\' {
      var s, more := EscapeCommas(v), EscapeCommas(v[1..]);
      BackslashIsLost(v[1..]);
      assert s == (if v[0] == ',' then ['\\', ','] else [v[0]]) + more;
      assert if v[0] == ',' then s[2..] == more else s[1..] == more;
    } else if |v| > 1 {
      BackslashIsLost(v[2..]);
      AfterBackslash(v);
    }
  }

  lemma AfterBackslash(v: string)
    requires |v| > 1 && v[0] == '\\'
    ensures var s, last := EscapeCommas(v), EscapeCommas(v[2..]);
            && Weight(s) <= 2 + Weight(last)
            && RunesUntil(s, {','}).text == if v[1] == ',' then "\\" else [v[1]] + RunesUntil(last, {','}).text
  {
    var s, last := EscapeCommas(v), EscapeCommas(v[2..]);
    assert v[1..][1..] == v[2..];
    var next := if v[1] == ',' then ['\\', ','] + last else [v[1]] + last;
    assert EscapeCommas(v[1..]) == next && s == ['\\'] + next;
    hide EscapeCommas;
    if v[1] == ',' {
      TwoBackslashes([','] + last);
    } else {
      OneBackslash(v[1], last);
    }
  }

  lemma TwoBackslashes(rest: string)
    ensures var s := ['\\'] + (['\\'] + rest);
            Weight(s) == 1 + Weight(rest) && RunesUntil(s, {','}).text == ['\\'] + RunesUntil(rest, {','}).text
    ensures forall last: string :: rest == [','] + last ==> ['\\', ','] + last == ['\\'] + rest
  {
    OneBackslash('\\', rest);
  }

  lemma OneBackslash(c: char, rest: string)
    ensures var s := ['\\'] + ([c] + rest);
            Weight(s) == 1 + Weight(rest) && RunesUntil(s, {','}).text == [c] + RunesUntil(rest, {','}).text
  {
    var s := ['\\'] + ([c] + rest);
    assert s[0] == '\\' && s[1] == c && s[2..] == rest;
  }

  /** Whatever is set under k from here on, a string is shorter than the text left. */
  ghost predicate Short(data: Entries, later: Entries, k: string, n: nat) {
    k in later && later[k].Str? ==> (k in data && later[k] == data[k]) || |later[k].s| <= n
  }

  lemma {:induction false} ListWeighs(s: string, items: seq<Value>)
    ensures Weight(ListRead(s, items, true).rest) <= Weight(s)
    decreases |s|
  {
    ReadWeighs(s, {',', '}'});
    var r := RunesUntil(s, {',', '}'});
    if r.last == Some(',') {
      ListWeighs(r.rest, items + [TypedVal(r.text, true)]);
    }
  }

  lemma ValueWeighs(s: string)
    ensures var v := ReadValue(s, true);
            && Weight(v.rest) <= Weight(s)
            && (v.value.Some? && v.value.value.Str? ==> |v.value.value.s| + Weight(v.rest) <= Weight(s))
  {
    if s != "" && s[0] == '{' {
      ListWeighs(s[1..], []);
    } else if s != "" {
      ReadWeighs(s, {','});
    }
  }

  lemma {:induction false} KeyShortens(s: string, data: Entries, k: string)
    ensures var r := Key(s, data, true);
            Short(data, r.data, k, Weight(s)) && Weight(r.rest) <= Weight(s)
    decreases |s|, 1
  {
    hide ParseInt, ReadValue, Item, Weight, RunesUntil;
    var r := RunesUntil(s, KEYEND);
    ReadWeighs(s, KEYEND);
    if r.last == Some('=') {
      ValueWeighs(r.rest);
    } else if r.last == Some('[') {
      ReadWeighs(r.rest, {']'});
      var x := RunesUntil(r.rest, {']'});
      if x.last.Some? && ParseInt(x.text).Some? && (r.text in data ==> data[r.text].List?) {
        ItemShortens(x.rest, if r.text in data then data[r.text].items else [], ParseInt(x.text).value);
      }
    } else if r.last == Some('.') && (r.text in data ==> data[r.text].Map?) {
      KeyShortens(r.rest, if r.text in data then data[r.text].entries else map[], k);
    }
  }

  lemma {:induction false} ItemShortens(s: string, list: seq<Value>, i: int)
    ensures Weight(Item(s, list, i, true).rest) <= Weight(s)
    decreases |s|, 0
  {
    hide ParseInt, ReadValue, ListRead;
    var r := RunesUntil(s, ITEMEND);
    ReadWeighs(s, ITEMEND);
    if i >= 0 && r.text == "" {
      if r.last == Some('=') {
        ValueWeighs(r.rest);
      } else if r.last == Some('[') {
        ReadWeighs(r.rest, {']'});
        var x := RunesUntil(r.rest, {']'});
        if x.last.Some? && ParseInt(x.text).Some? {
          ItemShortens(x.rest, if i < |list| && list[i].List? then list[i].items else [], ParseInt(x.text).value);
        }
      } else if r.last == Some('.') {
        KeyShortens(r.rest, if i < |list| && list[i].Map? then list[i].entries else map[], "");
      }
    }
  }

  lemma {:induction false} ParseShortens(s: string, data: Entries, k: string)
    ensures Short(data, Parse(s, data, true).data, k, Weight(s))
    decreases |s|
  {
    hide Key;
    KeyShortens(s, data, k);
    var r := Key(s, data, true);
    if r.end.More? {
      ParseShortens(r.rest, r.data, k);
    }
  }

  /** The line Values parses for one key: the key as it is, and the value with its commas escaped. */
  function Line(k: string, v: string): string {
    k + "=" + EscapeCommas(v)
  }

  /** A key that the parser takes as it stands. */
  predicate Plain(k: string) {
    k != "" && forall i | 0 <= i < |k| :: k[i] !in SPECIAL
  }

  lemma {:induction false} PlainIsRaw(k: string)
    ensures Escape(k) == k <==> k == "" || Plain(k)
  {
    if k != "" {
      PlainIsRaw(k[1..]);
      EscapeIsLonger(k[1..]);
    }
  }

  lemma {:induction false} EscapeIsLonger(k: string)
    ensures |Escape(k)| >= |k|
  {
    if k != "" {
      EscapeIsLonger(k[1..]);
    }
  }

  lemma LineReads(k: string, v: string)
    requires Plain(k)
    ensures RunesUntil(Line(k, v), KEYEND) == Read(k, Some('='), EscapeCommas(v))
  {
    hide Escape, RunesUntil;
    PlainIsRaw(k);
    KeyReads([Field(k)], EscapeCommas(v));
    var s, t := Line(k, v), "=" + EscapeCommas(v);
    assert Steps([Field(k)][1..]) == "";
    assert s == Escape(k) + t && t[0] == '=' && t[1..] == EscapeCommas(v);
    EscapedReads(k, t, KEYEND);
  }

  /** For a plain key, escaping the commas preserves a value exactly if it has no backslash and does not start
      like a list. */
  lemma EscapingIsExact(k: string, v: string, data: Entries)
    requires Plain(k)
    ensures Parse(Line(k, v), data, true) == Parsed(data[k := Str(v)], true) <==>
              NoBackslash(v) && (v == "" || v[0] != '{')
  {
    hide ListRead, RunesUntil, Key, PathText, Parse;
    LineReads(k, v);
    if NoBackslash(v) && (v == "" || v[0] != '{') {
      PlainIsKept(k, v, data);
    } else {
      OthersAreLost(k, v, data);
    }
  }

  lemma LineStep(k: string, v: string, data: Entries)
    requires Plain(k)
    ensures var x := ReadValue(EscapeCommas(v), true);
            && (x.end.Fail? ==> !Parse(Line(k, v), data, true).ok)
            && (x.end.More? ==> Parse(Line(k, v), data, true) == Parse(x.rest, data[k := x.value.value], true))
            && (x.end.Eof? ==> Parse(Line(k, v), data, true) == Parsed(data[k := x.value.value], true))
  {
    hide RunesUntil, ReadValue, Line;
    LineReads(k, v);
  }

  lemma StartsTheSame(v: string)
    ensures EscapeCommas(v) == "" <==> v == ""
    ensures v != "" ==> (EscapeCommas(v)[0] == '{' <==> v[0] == '{')
    ensures v != "" && v[0] == '{' ==> EscapeCommas(v)[1..] == EscapeCommas(v[1..])
  {
  }

  lemma PlainIsKept(k: string, v: string, data: Entries)
    requires Plain(k) && NoBackslash(v) && (v == "" || v[0] != '{')
    ensures Parse(Line(k, v), data, true) == Parsed(data[k := Str(v)], true)
  {
    hide RunesUntil, Line, Parse, EscapeCommas;
    LineStep(k, v, data);
    StartsTheSame(v);
    CommasRead(v);
    ParseEmpty(data[k := Str(v)], true);
  }

  lemma OthersAreLost(k: string, v: string, data: Entries)
    requires Plain(k) && !(NoBackslash(v) && (v == "" || v[0] != '{'))
    ensures Parse(Line(k, v), data, true) != Parsed(data[k := Str(v)], true)
  {
    hide RunesUntil, Line, Parse, EscapeCommas, ListRead;
    LineStep(k, v, data);
    StartsTheSame(v);
    BackslashIsLost(v);
    var t := EscapeCommas(v);
    var x := ReadValue(t, true);
    assert v != "" && !x.end.Eof?;
    if x.end.More? {
      var later := data[k := x.value.value];
      ParseShortens(x.rest, later, k);
      if v[0] == '{' {
        ListWeighs(t[1..], []);
        BackslashIsLost(v[1..]);
      } else {
        ReadWeighs(t, {','});
        LostIsShorter(v);
      }
      assert Short(later, Parse(x.rest, later, true).data, k, Weight(x.rest));
      assert !(later[k] == Str(v));
    }
  }

  /** With a backslash, what is left to parse after the value is shorter than the value. */
  lemma LostIsShorter(v: string)
    requires !NoBackslash(v)
    ensures Weight(RunesUntil(EscapeCommas(v), {','}).rest) < |v|
  {
    BackslashIsLost(v);
    ReadWeighs(EscapeCommas(v), {','});
  }

  // ------------------------------------------------------------------ overlays

  /** Every proper prefix of the path that is there is a map. */
  ghost predicate Fits(m: Entries, p: Path) {
    !Blocked(m, p)
  }

  /** Neither path goes through the other. */
  predicate Apart(p: Path, q: Path) {
    !(p <= q) && !(q <= p)
  }

  lemma {:induction false} GrowsIfFits(m: Entries, p: Path, v: Value)
    requires p != [] && AllKeys(p)
    ensures Grow(Some(Map(m)), p, v).Some? <==> Fits(m, p)
    decreases |p|
  {
    var k, q := p[0].key, p[1..];
    assert p[0] in p && forall step :: step in q ==> step in p;
    GrowAtKey(p, v, m);
    if q == [] {
      GrowNothing(if k in m then Some(m[k]) else None, v);
    } else if k !in m {
      NotBlocked(m, p);
      GrowFits(q, v, Null);
      assert q[0] in p;
      GrowsIfFits(map[], q, v);
    } else if m[k].Map? {
      BlockedNext(m, p);
      GrowsIfFits(m[k].entries, q, v);
    } else {
      assert q[0] in p;
      GrowFits(q, v, m[k]);
      GetNext(m, p[..1]);
      assert p[..1][1..] == [];
    }
  }

  lemma {:induction false} GrowFrames(old_: Option<Value>, p: Path, v: Value, q: Path)
    requires AllKeys(p) && Grow(old_, p, v).Some? && Apart(p, q)
    ensures At(Grow(old_, p, v), q) == At(old_, q)
    decreases |p|
  {
    assert [] <= q && p[0] in p && forall step :: step in p[1..] ==> step in p;
    var k := p[0].key;
    var m := if old_.Some? then old_.value.entries else map[];
    if p[0] == q[0] {
      assert p == [p[0]] + p[1..] && q == [q[0]] + q[1..];
      GrowFrames(if k in m then Some(m[k]) else None, p[1..], v, q[1..]);
    }
  }

  /** Setting one path to a value without backslashes that does not start like a list succeeds
      exactly if the path fits; then it sets that path, and nothing that lies apart from it. */
  lemma Overlay(p: Path, v: string, data: Entries)
    requires p != [] && AllKeys(p) && WellPath(p) && NoBackslash(v) && (v == "" || v[0] != '{')
    ensures var r := Parse(PathText(p) + "=" + EscapeCommas(v), data, true);
            && (r.ok <==> Fits(data, p))
            && (r.ok ==> Get(r.data, p) == Some(Str(v)))
            && (r.ok ==> forall q :: Apart(p, q) ==> Get(r.data, q) == Get(data, q))
  {
    hide Parse, Grow, At, PathText, EscapeCommas, RunesUntil;
    assert p[0] in p;
    var grown := Grow(Some(Map(data)), p, Str(v));
    GrowsIfFits(data, p, Str(v));
    OverlayParses(p, v, data);
    if grown.Some? {
      WrittenIs(data, p, Str(v));
      AtGrown(Some(Map(data)), p, Str(v));
      forall q | Apart(p, q) ensures At(grown, q) == Get(data, q) {
        GrowFrames(Some(Map(data)), p, Str(v), q);
      }
    }
  }

  lemma OverlayParses(p: Path, v: string, data: Entries)
    requires p != [] && AllKeys(p) && p[0].Field? && WellPath(p) && NoBackslash(v) && (v == "" || v[0] != '{')
    ensures var r := Parse(PathText(p) + "=" + EscapeCommas(v), data, true);
            if Grow(Some(Map(data)), p, Str(v)).Some? then r == Parsed(Written(data, p, Str(v)), true) else !r.ok
  {
    hide Grow, PathText, EscapeCommas, RunesUntil, Key;
    StartsTheSame(v);
    CommasRead(v);
    if v == "" {
      KeyEnds(p, data);
    } else {
      KeyGrows(p, EscapeCommas(v), Str(v), "", data, true);
    }
    if Grow(Some(Map(data)), p, Str(v)).Some? {
      WrittenIs(data, p, Str(v));
      ParseEmpty(Written(data, p, Str(v)), true);
    }
  }

  /** An assignment with nothing after the equals sign, at the end of the line, loses nothing. */
  lemma KeyEnds(p: Path, data: Entries)
    requires p != [] && p[0].Field? && AllKeys(p) && WellPath(p)
    ensures var r := Key(PathText(p) + "=" + "", data, true);
            match Grow(Some(Map(data)), p, Str(""))
            case Some(x) => x.Map? && r == KeyRead(x.entries, "", Eof)
            case None => r.end.Fail?
  {
    hide Key, Grow, PathText, Left, Overruns;
    KeyLeaves(p, data, true);
    KeysDoNotOverrun(Some(Map(data)), p);
    assert p[|p| - 1] in p;
    if Grow(Some(Map(data)), p, Str("")).Some? {
      LeftIsGrown(Some(Map(data)), p);
    }
  }

  lemma {:induction false} KeysDoNotOverrun(old_: Option<Value>, p: Path)
    requires AllKeys(p)
    ensures !Overruns(old_, p)
    decreases |p|
  {
    if |p| > 1 {
      assert p[0] in p && forall step :: step in p[1..] ==> step in p;
      var k := p[0].key;
      var m := if old_.Some? && old_.value.Map? then old_.value.entries else map[];
      KeysDoNotOverrun(if k in m then Some(m[k]) else None, p[1..]);
    }
  }
}
