/** String helpers of the configuration code. */
module Text {
  import opened Bytes

  predicate Blank(c: char)
  {
    c == ' ' || c == '\t' || c == '\r' || c == '\n'
  }

  predicate AllBlank(s: string)
  {
    forall i :: 0 <= i < |s| ==> Blank(s[i])
  }

  function TrimLeft(s: string): (r: string)
    ensures |r| <= |s|
  {
    if s != [] && Blank(s[0]) then TrimLeft(s[1..]) else s
  }

  function TrimRight(s: string): (r: string)
    ensures |r| <= |s|
  {
    if s != [] && Blank(s[|s| - 1]) then TrimRight(s[..|s| - 1]) else s
  }

  function TrimCopy(s: string): (r: string)
  {
    TrimRight(TrimLeft(s))
  }

  function StripQuotes(s: string): (r: string)
  {
    if |s| >= 2 && ((s[0] == '"' && s[|s| - 1] == '"') || (s[0] == '\'' && s[|s| - 1] == '\'')) then s[1..|s| - 1]
    else s
  }

  /** The leading spaces and tabs. */
  function Indent(s: string): (n: nat)
    ensures n <= |s|
  {
    if s != [] && (s[0] == ' ' || s[0] == '\t') then 1 + Indent(s[1..]) else 0
  }

  /** `find`: the first position of a character. */
  function Find(s: string, c: char): (r: Option<nat>)
    ensures r.Some? ==> r.value < |s| && s[r.value] == c && c !in s[..r.value]
    ensures r.None? ==> c !in s
  {
    if s == [] then None
    else if s[0] == c then Some(0)
    else
      match Find(s[1..], c)
      case None => None
      case Some(i) =>
        assert s[..i + 1] == [s[0]] + s[1..][..i];
        Some(i + 1)
  }

  /** Text with no blank at either end. */
  predicate Trimmed(s: string)
  {
    s == "" || (!Blank(s[0]) && !Blank(s[|s| - 1]))
  }

  lemma {:induction false} TrimLeftPad(pad: string, s: string)
    requires AllBlank(pad) && (s == "" || !Blank(s[0]))
    ensures TrimLeft(pad + s) == s
  {
    if pad == "" {
      assert pad + s == s;
    } else {
      assert (pad + s)[1..] == pad[1..] + s;
      TrimLeftPad(pad[1..], s);
    }
  }

  lemma {:induction false} TrimRightPad(s: string, pad: string)
    requires AllBlank(pad) && (s == "" || !Blank(s[|s| - 1]))
    ensures TrimRight(s + pad) == s
  {
    if pad == "" {
      assert s + pad == s;
    } else {
      var front := pad[..|pad| - 1];
      assert (s + pad)[..|s + pad| - 1] == s + front;
      TrimRightPad(s, front);
    }
  }

  /** Trimming takes off exactly the surrounding blanks. */
  lemma TrimPadded(left: string, s: string, right: string)
    requires AllBlank(left) && AllBlank(right) && Trimmed(s)
    ensures TrimCopy(left + s + right) == s
  {
    if s == "" {
      assert left + s + right == (left + right) + "";
      TrimLeftPad(left + right, "");
    } else {
      assert left + s + right == left + (s + right);
      TrimLeftPad(left, s + right);
      TrimRightPad(s, right);
    }
  }

  lemma {:induction false} IndentPad(pad: string, s: string)
    requires forall i :: 0 <= i < |pad| ==> pad[i] == ' ' || pad[i] == '\t'
    requires s != "" && !Blank(s[0])
    ensures Indent(pad + s) == |pad|
  {
    if pad == "" {
      assert pad + s == s;
    } else {
      assert (pad + s)[1..] == pad[1..] + s;
      IndentPad(pad[1..], s);
    }
  }

  lemma {:induction false} FindAfter(s: string, c: char, rest: string)
    requires c !in s
    ensures Find(s + [c] + rest, c) == Some(|s|)
  {
    var whole := s + [c] + rest;
    if s != "" {
      assert whole[1..] == s[1..] + [c] + rest;
      FindAfter(s[1..], c, rest);
    }
  }

  method CountIndent(line: string) returns (indent: nat)
    ensures indent == Indent(line)
  {
    indent := 0;
    assert line[0..] == line;
    while indent < |line| && (line[indent] == ' ' || line[indent] == '\t')
      invariant 0 <= indent <= |line|
      invariant Indent(line) == indent + Indent(line[indent..])
    {
      assert line[indent..][1..] == line[indent + 1..];
      indent := indent + 1;
    }
  }

  // ---------------------------------------------------------------- splitting at a delimiter

  /** The parts between delimiters; always at least one. */
  function SplitOn(s: string, d: char): (parts: seq<string>)
    ensures |parts| >= 1
    decreases |s|
  {
    match Find(s, d)
    case None => [s]
    case Some(i) => [s[..i]] + SplitOn(s[i + 1..], d)
  }

  function Join(parts: seq<string>, d: char): (s: string)
  {
    if parts == [] then ""
    else if |parts| == 1 then parts[0]
    else parts[0] + [d] + Join(parts[1..], d)
  }

  /** Splitting a joined list gives the list back when no part contains the delimiter. */
  lemma {:induction false} JoinSnoc(parts: seq<string>, last: string, d: char)
    ensures Join(parts + [last], d) == (if parts == [] then last else Join(parts, d) + [d] + last)
  {
    if |parts| == 0 {
      assert parts + [last] == [last];
    } else {
      assert (parts + [last])[1..] == parts[1..] + [last];
      JoinSnoc(parts[1..], last, d);
      if |parts| > 1 {
        var rest := Join(parts[1..], d);
        assert parts[0] + [d] + (rest + [d] + last) == (parts[0] + [d] + rest) + [d] + last;
      }
    }
  }

  lemma JoinStarts(parts: seq<string>, d: char)
    requires parts != [] && parts[0] != ""
    ensures Join(parts, d) != ""
  {
  }

  lemma {:induction false} SplitJoin(parts: seq<string>, d: char)
    requires |parts| >= 1 && forall i :: 0 <= i < |parts| ==> d !in parts[i]
    ensures SplitOn(Join(parts, d), d) == parts
  {
    hide Find, SplitOn;
    if |parts| > 1 {
      var head, rest := parts[0], Join(parts[1..], d);
      SplitJoin(parts[1..], d);
      SplitFirst(head, rest, d);
      assert [head] + parts[1..] == parts;
    } else {
      SplitLast(parts[0], d);
      assert [parts[0]] == parts;
    }
  }

  lemma SplitFirst(head: string, rest: string, d: char)
    requires d !in head
    ensures SplitOn(head + [d] + rest, d) == [head] + SplitOn(rest, d)
  {
    hide Find;
    var whole := head + [d] + rest;
    FindAfter(head, d, rest);
    assert whole[..|head|] == head && whole[|head| + 1..] == rest;
  }

  lemma SplitLast(text: string, d: char)
    requires d !in text
    ensures SplitOn(text, d) == [text]
  {
    hide Find;
  }

  /** The parts are free of the delimiter and join to the text. */
  lemma {:induction false} JoinSplit(s: string, d: char)
    ensures Join(SplitOn(s, d), d) == s
    ensures forall i :: 0 <= i < |SplitOn(s, d)| ==> d !in SplitOn(s, d)[i]
    decreases |s|
  {
    var f := Find(s, d);
    if f.Some? {
      var i := f.value;
      JoinSplit(s[i + 1..], d);
      assert s == s[..i] + [d] + s[i + 1..];
      assert SplitOn(s, d)[1..] == SplitOn(s[i + 1..], d);
    }
  }

  /** The part of the text from `cursor` on is cut at its next delimiter. */
  lemma SplitFrom(raw: string, cursor: nat, d: char)
    requires cursor <= |raw|
    ensures var next := Find(raw[cursor..], d);
            SplitOn(raw[cursor..], d)
              == (match next
                  case None => [raw[cursor..]]
                  case Some(i) => [raw[cursor..cursor + i]] + SplitOn(raw[cursor + i + 1..], d))
  {
    hide Find;
    var next := Find(raw[cursor..], d);
    if next.Some? {
      var i := next.value;
      assert raw[cursor..][..i] == raw[cursor..cursor + i] && raw[cursor..][i + 1..] == raw[cursor + i + 1..];
    }
  }

  /** One turn of the cursor loop. */
  lemma SplitTurn(raw: string, cursor: nat, d: char, parts: seq<string>)
    requires cursor <= |raw| && SplitOn(raw, d) == parts + SplitOn(raw[cursor..], d)
    ensures match Find(raw[cursor..], d)
            case None => SplitOn(raw, d) == parts + [raw[cursor..]]
            case Some(i) =>
              SplitOn(raw, d) == (parts + [raw[cursor..cursor + i]]) + SplitOn(raw[cursor + i + 1..], d)
  {
    hide Find, SplitOn;
    SplitFrom(raw, cursor, d);
    var next := Find(raw[cursor..], d);
    if next.Some? {
      var part, rest := [raw[cursor..cursor + next.value]], SplitOn(raw[cursor + next.value + 1..], d);
      assert parts + (part + rest) == (parts + part) + rest;
    }
  }

  lemma SplitStart(raw: string, d: char)
    ensures SplitOn(raw, d) == [] + SplitOn(raw[0..], d)
  {
    hide SplitOn;
    assert raw[0..] == raw;
  }

  /** The cursor loop. */
  method Split(raw: string, d: char) returns (parts: seq<string>)
    ensures parts == SplitOn(raw, d)
  {
    hide Find, SplitOn;
    parts := [];
    var cursor := 0;
    SplitStart(raw, d);
    while cursor <= |raw|
      invariant 0 <= cursor <= |raw|
      invariant SplitOn(raw, d) == parts + SplitOn(raw[cursor..], d)
      decreases |raw| - cursor
    {
      SplitTurn(raw, cursor, d, parts);
      var next := Find(raw[cursor..], d);
      if next == None {
        parts := parts + [raw[cursor..]];
        return;
      }
      parts := parts + [raw[cursor..cursor + next.value]];
      cursor := cursor + next.value + 1;
    }
  }
}
