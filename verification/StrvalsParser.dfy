/** The strvals parser at work: it consumes a buffer rune by rune. Each method is proved against
    its function in Strvals, with what is left in the buffer. */
module StrvalsParser {
  import opened Prelude
  import opened Strvals

  /** What valList returns: a list, io.EOF, ErrNotList, or another error. */
  datatype Listed = Listed(items: seq<Value>) | AtEof | NotList | BadList

  /** What is read when text has been read before. */
  function Before(text: string, r: Read): Read {
    r.(text := text + r.text)
  }

  lemma ReadStep(text: string, s: string, stop: set<char>)
    requires s != ""
    ensures var r := Before(text, Strvals.RunesUntil(s, stop));
            if s[0] in stop then r == Read(text, Some(s[0]), s[1..])
            else if s[0] != '\\' then r == Before(text + [s[0]], Strvals.RunesUntil(s[1..], stop))
            else if |s| == 1 then r == Read(text, None, "")
            else r == Before(text + [s[1]], Strvals.RunesUntil(s[2..], stop))
  {
    var r := Strvals.RunesUntil(s, stop);
    assert text + "" == text;
    if s[0] !in stop && s[0] == '\\' && |s| > 1 {
      assert text + r.text == (text + [s[1]]) + Strvals.RunesUntil(s[2..], stop).text;
    } else if s[0] !in stop && s[0] != '\\' {
      assert text + r.text == (text + [s[0]]) + Strvals.RunesUntil(s[1..], stop).text;
    }
  }

  lemma ReadEnd(text: string, stop: set<char>)
    ensures Before(text, Strvals.RunesUntil("", stop)) == Read(text, None, "")
    ensures forall r: Read :: Before("", r) == r
  {
    assert text + "" == text;
    assert forall t: string :: "" + t == t;
  }

  class Parser {
    var sc: string
    const st: bool

    constructor (s: string, st: bool)
      ensures sc == s && this.st == st
    {
      sc, this.st := s, st;
    }

    method RunesUntil(stop: set<char>) returns (text: string, last: Option<char>)
      modifies this
      ensures Strvals.RunesUntil(old(sc), stop) == Read(text, last, sc)
    {
      hide Strvals.RunesUntil, Before;
      text := "";
      ReadEnd(text, stop);
      while sc != ""
        invariant Strvals.RunesUntil(old(sc), stop) == Before(text, Strvals.RunesUntil(sc, stop))
        decreases |sc|
      {
        ReadStep(text, sc, stop);
        var r, rest := sc[0], sc[1..];
        if r in stop {
          sc := rest;
          return text, Some(r);
        }
        if r == '\\' {
          if rest == "" {
            sc := rest;
            return text, None;
          }
          assert sc[2..] == rest[1..];
          text, sc := text + [rest[0]], rest[1..];
        } else {
          text, sc := text + [r], rest;
        }
      }
      ReadEnd(text, stop);
      return text, None;
    }

    method KeyIndex() returns (i: Option<int>)
      modifies this
      ensures var r := Strvals.RunesUntil(old(sc), {']'});
              sc == r.rest && i == if r.last.Some? then ParseInt(r.text) else None
    {
      var text, last := RunesUntil({']'});
      return if last.Some? then ParseInt(text) else None;
    }

    method ValList() returns (r: Listed)
      modifies this
      ensures var v := ReadValue(old(sc), st);
              match r
              case AtEof => old(sc) == "" && sc == ""
              case NotList => old(sc) != "" && old(sc)[0] != '{' && sc == old(sc)
              case BadList => v == ValueRead(None, sc, Fail)
              case Listed(items) => v == ValueRead(Some(List(items)), sc, More)
    {
      hide Strvals.RunesUntil, TypedVal;
      if sc == "" {
        return AtEof;
      }
      if sc[0] != '{' {
        return NotList;
      }
      sc := sc[1..];
      ghost var all := ListRead(sc, [], st);
      var items := [];
      while true
        invariant ListRead(sc, items, st) == all
        decreases |sc|
      {
        var text, last := RunesUntil({',', '}'});
        if last.None? {
          return BadList;
        }
        items := items + [TypedVal(text, st)];
        if last == Some('}') {
          if sc != "" && sc[0] == ',' {
            sc := sc[1..];
          }
          return Listed(items);
        }
      }
    }

    /** The value after an equals sign, of a key or of a list item. */
    method Value() returns (v: Option<Value>, end: End)
      modifies this
      ensures ReadValue(old(sc), st) == ValueRead(v, sc, end)
    {
      var list := ValList();
      match list
      case Listed(items) => return Some(List(items)), More;
      case AtEof => return Some(Str("")), Eof;
      case BadList => return None, Fail;
      case NotList =>
        var text, last := RunesUntil({','});
        return Some(TypedVal(text, st)), More;
    }

    method Key(data: Entries) returns (data': Entries, end: End)
      modifies this
      ensures Strvals.Key(old(sc), data, st) == KeyRead(data', sc, end)
      decreases |sc|, 1
    {
      hide Strvals.RunesUntil, ReadValue, ParseInt, Strvals.Item;
      data' := data;
      var k, last := RunesUntil(KEYEND);
      if last.None? {
        return data, if k == "" then Eof else Fail;
      }
      if last == Some('[') {
        var i := KeyIndex();
        if i.None? || (k in data && !data[k].List?) {
          return data, Fail;
        }
        var list;
        list, end := ListItem(if k in data then data[k].items else [], i.value);
        if end.Panic? {
          return data, Fail;
        }
        data' := SetList(data, k, list);
      } else if last == Some('=') {
        var v;
        v, end := Value();
        if !end.Fail? {
          data' := Set(data, k, v.value);
        }
      } else if last == Some(',') {
        data', end := Set(data, k, Str("")), Fail;
      } else {
        if k in data && !data[k].Map? {
          return data, Fail;
        }
        var inner := if k in data then data[k].entries else map[];
        inner, end := Key(inner);
        if inner == map[] {
          return data, Fail;
        }
        data' := if k in data then data[k := Map(inner)] else Set(data, k, Map(inner));
      }
    }

    method ListItem(list: seq<Value>, i: int) returns (list': seq<Value>, end: End)
      modifies this
      ensures Item(old(sc), list, i, st) == ItemRead(list', sc, end)
      decreases |sc|, 0
    {
      hide Strvals.RunesUntil, ReadValue, ParseInt, Strvals.Key, SetIndex;
      list' := list;
      if i < 0 {
        return list, Fail;
      }
      var text, last := RunesUntil(ITEMEND);
      if text != "" {
        return list, Fail;
      }
      if last.None? {
        return list, Eof;
      }
      if last == Some('=') {
        var v;
        v, end := Value();
        if end.Fail? {
          return;
        }
        return SetIndex(list, i, v.value), More;
      }
      if last == Some('[') {
        var next := KeyIndex();
        if next.None? {
          return list, Fail;
        }
        if i < |list| && !list[i].Null? && !list[i].List? {
          return list, Panic;
        }
        var found := i < |list| && list[i].List?;
        var inner;
        inner, end := ListItem(if found then list[i].items else [], next.value);
        if end.More? {
          list' := SetIndex(list, i, List(inner));
        } else if found {
          list' := list[i := List(inner)];
        }
      } else {
        var inner := if i < |list| && list[i].Map? then list[i].entries else map[];
        inner, end := Key(inner);
        if end.More? {
          list' := SetIndex(list, i, Map(inner));
        } else if i < |list| {
          list' := list[i := Map(inner)];
        }
      }
    }

    /** parse: keys until the input ends or one of them fails. */
    method Parse(data: Entries) returns (data': Entries, ok: bool)
      modifies this
      ensures Strvals.Parse(old(sc), data, st) == Parsed(data', ok)
    {
      hide Strvals.Key;
      data' := data;
      while true
        invariant Strvals.Parse(sc, data', st) == Strvals.Parse(old(sc), data, st)
        decreases |sc|
      {
        var end;
        data', end := Key(data');
        if !end.More? {
          return data', end.Eof?;
        }
      }
    }
  }
}
