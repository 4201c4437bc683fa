/** The YAML-subset loader: lines in, a flat map of dotted paths out, with a stack of open sections. */
module Config {
  import opened Bytes
  import opened Text

  datatype Section = Section(indent: nat, name: string)

  datatype State = State(sections: seq<Section>, entries: map<string, string>)

  /** What a line says. */
  datatype Meaning = Nothing | Opens(indent: nat, key: string) | Sets(indent: nat, key: string, value: string)

  // ---------------------------------------------------------------- one line

  function StripComment(line: string): (r: string)
  {
    match Find(line, '#') case None => line case Some(i) => line[..i]
  }

  function Read(line: string): (m: Meaning)
  {
    var bare := StripComment(line);
    var trimmed := TrimCopy(bare);
    if trimmed == "" then Nothing
    else
      match Find(trimmed, ':')
      case None => Nothing
      case Some(i) =>
        var key := StripQuotes(TrimCopy(trimmed[..i]));
        var value := StripQuotes(TrimCopy(trimmed[i + 1..]));
        if value == "" then Opens(Indent(bare), key) else Sets(Indent(bare), key, value)
  }

  /** Closes every section that is indented at least as far. */
  function PopTo(sections: seq<Section>, indent: nat): (r: seq<Section>)
  {
    if sections != [] && sections[|sections| - 1].indent >= indent then PopTo(sections[..|sections| - 1], indent)
    else sections
  }

  function Dotted(path: string, name: string): (r: string)
  {
    if path == "" then name else path + "." + name
  }

  function PathOf(sections: seq<Section>): (r: string)
  {
    if sections == [] then "" else Dotted(PathOf(sections[..|sections| - 1]), sections[|sections| - 1].name)
  }

  function Obey(s: State, m: Meaning): (s': State)
  {
    match m
    case Nothing => s
    case Opens(indent, key) => s.(sections := PopTo(s.sections, indent) + [Section(indent, key)])
    case Sets(indent, key, value) =>
      var open := PopTo(s.sections, indent);
      State(open, s.entries[Dotted(PathOf(open), key) := value])
  }

  /** The line loop skips blank lines and comments before it parses. */
  function Line(s: State, line: string): (s': State)
  {
    var trimmed := TrimCopy(line);
    if trimmed == "" || trimmed[0] == '#' then s else Obey(s, Read(line))
  }

  function Lines(s: State, lines: seq<string>): (s': State)
    decreases |lines|
  {
    if lines == [] then s else Lines(Line(s, lines[0]), lines[1..])
  }

  // ---------------------------------------------------------------- fgets

  const BUFFER: nat := 1023

  /** How much one `fgets` takes: up to and including a newline, at most 1023 characters. */
  function Taken(text: string, limit: nat): (n: nat)
    ensures n <= |text| && n <= limit
    ensures text != "" && limit > 0 ==> n > 0
  {
    if text == "" || limit == 0 then 0
    else if text[0] == '\n' then 1
    else 1 + Taken(text[1..], limit - 1)
  }

  /** A C string ends at its first NUL. */
  function UntilNul(s: string): (r: string)
  {
    match Find(s, '\0') case None => s case Some(i) => s[..i]
  }

  function Chunks(text: string): (lines: seq<string>)
    decreases |text|
  {
    if text == "" then []
    else
      var n := Taken(text, BUFFER);
      [UntilNul(text[..n])] + Chunks(text[n..])
  }

  /** What `LoadConfigFile` leaves in the map for a file with this text. */
  function Load(text: string): (entries: map<string, string>)
  {
    Lines(State([], map[]), Chunks(text)).entries
  }

  // ---------------------------------------------------------------- the section stack

  /** Indents grow strictly from the bottom of the stack to the top. */
  ghost predicate Increasing(sections: seq<Section>)
  {
    forall i, j :: 0 <= i < j < |sections| ==> sections[i].indent < sections[j].indent
  }

  lemma {:induction false} PopToKeeps(sections: seq<Section>, indent: nat)
    requires Increasing(sections)
    ensures Increasing(PopTo(sections, indent)) && PopTo(sections, indent) <= sections
    ensures forall i :: 0 <= i < |PopTo(sections, indent)| ==> PopTo(sections, indent)[i].indent < indent
  {
    if sections != [] && sections[|sections| - 1].indent >= indent {
      PopToKeeps(sections[..|sections| - 1], indent);
    }
  }

  /** Whatever a line contains, the stack stays strictly increasing. */
  lemma LineKeepsIncreasing(s: State, line: string)
    requires Increasing(s.sections)
    ensures Increasing(Line(s, line).sections)
  {
    var m := Read(line);
    if !m.Nothing? { PopToKeeps(s.sections, m.indent); }
  }

  lemma {:induction false} LinesKeepIncreasing(s: State, lines: seq<string>)
    requires Increasing(s.sections)
    ensures Increasing(Lines(s, lines).sections)
    decreases |lines|
  {
    if lines != [] {
      LineKeepsIncreasing(s, lines[0]);
      LinesKeepIncreasing(Line(s, lines[0]), lines[1..]);
    }
  }

  // ---------------------------------------------------------------- trees

  /** A configuration tree; a section says how far its children are indented. */
  datatype Node = Leaf(key: string, value: string) | Branch(key: string, inner: nat, children: seq<Node>)

  /** Every section indents its children further than itself. */
  predicate Indented(n: Node, indent: nat)
    decreases n
  {
    n.Branch? ==> n.inner > indent && forall i :: 0 <= i < |n.children| ==> Indented(n.children[i], n.inner)
  }

  predicate AllIndented(ns: seq<Node>, indent: nat)
  {
    forall i :: 0 <= i < |ns| ==> Indented(ns[i], indent)
  }

  /** The lines of a tree in document order. */
  function Emit(ns: seq<Node>, indent: nat): (ms: seq<Meaning>)
    decreases ns
  {
    if ns == [] then []
    else EmitNode(ns[0], indent) + Emit(ns[1..], indent)
  }

  function EmitNode(n: Node, indent: nat): (ms: seq<Meaning>)
    decreases n
  {
    match n
    case Leaf(key, value) => [Sets(indent, key, value)]
    case Branch(key, inner, children) => [Opens(indent, key)] + Emit(children, inner)
  }

  /** Section names before the first nonempty one leave no trace in a path. */
  function Significant(keys: seq<string>): (r: seq<string>)
  {
    if keys != [] && keys[0] == "" then Significant(keys[1..]) else keys
  }

  /** The name of a setting below these sections. */
  function FullKey(keys: seq<string>, key: string): (name: string)
  {
    Join(Significant(keys) + [key], '.')
  }

  /** The flat map of a tree below these sections: later writes replace earlier ones. */
  function Flatten(ns: seq<Node>, keys: seq<string>, entries: map<string, string>): (r: map<string, string>)
    decreases ns
  {
    if ns == [] then entries
    else Flatten(ns[1..], keys, FlattenNode(ns[0], keys, entries))
  }

  function FlattenNode(n: Node, keys: seq<string>, entries: map<string, string>): (r: map<string, string>)
    decreases n
  {
    match n
    case Leaf(key, value) => entries[FullKey(keys, key) := value]
    case Branch(key, _, children) => Flatten(children, keys + [key], entries)
  }

  function Names(sections: seq<Section>): (names: seq<string>)
    ensures |names| == |sections|
  {
    seq(|sections|, i requires 0 <= i < |sections| => sections[i].name)
  }

  lemma {:induction false} SignificantSnoc(keys: seq<string>, key: string)
    ensures Significant(keys + [key])
         == (if Significant(keys) != [] then Significant(keys) + [key] else if key == "" then [] else [key])
    ensures Significant(keys) != [] ==> Significant(keys)[0] != ""
  {
    if keys == [] {
      assert [] + [key] == [key] && [key][1..] == [];
    } else {
      assert (keys + [key])[1..] == keys[1..] + [key];
      if keys[0] == "" { SignificantSnoc(keys[1..], key); }
    }
  }

  /** The path of a stack of sections is their names joined with dots, leading empty names aside. */
  lemma {:induction false} PathIs(sections: seq<Section>)
    ensures PathOf(sections) == Join(Significant(Names(sections)), '.')
    ensures (forall i :: 0 <= i < |sections| ==> sections[i].name != "") ==>
              PathOf(sections) == Join(Names(sections), '.')
  {
    if sections != [] {
      var front, last := sections[..|sections| - 1], sections[|sections| - 1];
      PathIs(front);
      assert Names(sections) == Names(front) + [last.name];
      KeyIs(front, last.name);
      SignificantSnoc(Names(front), last.name);
      if Significant(Names(front)) == [] { assert [] + [last.name] == [last.name]; }
    }
  }

  lemma KeyIs(sections: seq<Section>, key: string)
    requires PathOf(sections) == Join(Significant(Names(sections)), '.')
    ensures Dotted(PathOf(sections), key) == FullKey(Names(sections), key)
  {
    var names := Significant(Names(sections));
    SignificantSnoc(Names(sections), key);
    JoinSnoc(names, key, '.');
    if names == [] { assert names + [key] == [key]; } else { JoinStarts(names, '.'); }
  }

  /** With nonempty dot-free names, the name of a setting splits back into them: different settings never collide. */
  lemma FullKeySplits(keys: seq<string>, key: string)
    requires forall k :: k in keys + [key] ==> k != "" && '.' !in k
    ensures SplitOn(FullKey(keys, key), '.') == keys + [key]
  {
    assert keys != [] ==> keys[0] in keys + [key];
    forall i | 0 <= i < |keys + [key]| ensures '.' !in (keys + [key])[i] { assert (keys + [key])[i] in keys + [key]; }
    SplitJoin(keys + [key], '.');
  }

  function ObeyAll(s: State, ms: seq<Meaning>): (s': State)
    decreases |ms|
  {
    if ms == [] then s else ObeyAll(Obey(s, ms[0]), ms[1..])
  }

  lemma {:induction false} ObeyAppend(s: State, a: seq<Meaning>, b: seq<Meaning>)
    ensures ObeyAll(s, a + b) == ObeyAll(ObeyAll(s, a), b)
    decreases |a|
  {
    if a == [] {
      assert a + b == b;
    } else {
      assert (a + b)[1..] == a[1..] + b;
      ObeyAppend(Obey(s, a[0]), a[1..], b);
    }
  }

  lemma {:induction false} PopTwice(sections: seq<Section>, far: nat, near: nat)
    requires near <= far
    ensures PopTo(PopTo(sections, far), near) == PopTo(sections, near)
  {
    if sections != [] && sections[|sections| - 1].indent >= far {
      PopTwice(sections[..|sections| - 1], far, near);
    }
  }

  lemma PopPushed(base: seq<Section>, indent: nat, name: string)
    ensures PopTo(base + [Section(indent, name)], indent) == PopTo(base, indent)
    ensures forall inner :: inner > indent ==>
              PopTo(base + [Section(indent, name)], inner) == base + [Section(indent, name)]
  {
    var all := base + [Section(indent, name)];
    assert all[..|all| - 1] == base;
  }

  /** The lines of a node, read when the enclosing sections are `base`, write exactly the node's flat entries and leave
      `base` open again for the next line at this indent. */
  lemma {:induction false} NodeLoads(s: State, n: Node, indent: nat, base: seq<Section>)
    requires PopTo(s.sections, indent) == base && Indented(n, indent)
    ensures var s' := ObeyAll(s, EmitNode(n, indent));
            PopTo(s'.sections, indent) == base && s'.entries == FlattenNode(n, Names(base), s.entries)
    decreases n, 1
  {
    match n {
      case Leaf(key, value) =>
        PopTwice(s.sections, indent, indent);
        PathIs(base);
        KeyIs(base, key);
        assert ObeyAll(s, [Sets(indent, key, value)]) == Obey(s, Sets(indent, key, value));
      case Branch(key, inner, children) =>
        var inside := Obey(s, Opens(indent, key));
        assert EmitNode(n, indent)[1..] == Emit(children, inner);
        var stack := base + [Section(indent, key)];
        PopPushed(base, indent, key);
        assert Names(stack) == Names(base) + [key];
        ForestLoads(inside, children, inner, stack);
        var s' := ObeyAll(inside, Emit(children, inner));
        PopTwice(s'.sections, inner, indent);
        PopTwice(s.sections, indent, indent);
    }
  }

  lemma {:induction false} ForestLoads(s: State, ns: seq<Node>, indent: nat, base: seq<Section>)
    requires PopTo(s.sections, indent) == base && AllIndented(ns, indent)
    ensures var s' := ObeyAll(s, Emit(ns, indent));
            PopTo(s'.sections, indent) == base && s'.entries == Flatten(ns, Names(base), s.entries)
    decreases ns, 0
  {
    if ns != [] {
      NodeLoads(s, ns[0], indent, base);
      var mid := ObeyAll(s, EmitNode(ns[0], indent));
      ForestLoads(mid, ns[1..], indent, base);
      ObeyAppend(s, EmitNode(ns[0], indent), Emit(ns[1..], indent));
    }
  }

  // ---------------------------------------------------------------- printed lines

  predicate Spaces(s: string)
  {
    forall i :: 0 <= i < |s| ==> s[i] == ' ' || s[i] == '\t'
  }

  /** How a key or a value may be written: trimmed, with no comment sign; quotes around it are allowed. */
  predicate Written(s: string)
  {
    Trimmed(s) && '#' !in s
  }

  /** Blanks, then possibly a comment. */
  predicate Tail(s: string)
  {
    exists k :: 0 <= k <= |s| && AllBlank(s[..k]) && (k == |s| || s[k] == '#')
  }

  lemma StripTail(body: string, tail: string)
    requires '#' !in body && Tail(tail)
    ensures exists blanks :: AllBlank(blanks) && StripComment(body + tail) == body + blanks
  {
    var k :| 0 <= k <= |tail| && AllBlank(tail[..k]) && (k == |tail| || tail[k] == '#');
    var blanks := tail[..k];
    assert '#' !in blanks;
    var whole := body + tail;
    if k == |tail| {
      assert whole == body + blanks;
    } else {
      assert whole == (body + blanks) + ['#'] + tail[k + 1..];
      FindAfter(body + blanks, '#', tail[k + 1..]);
      assert whole[..|body + blanks|] == body + blanks;
    }
  }

  lemma BodyTrims(lead: string, key: string, pad1: string, pad2: string, value: string, blanks: string)
    requires Spaces(lead) && AllBlank(pad1) && AllBlank(pad2) && AllBlank(blanks)
    requires key != "" && Written(key) && ':' !in key && Written(value)
    ensures var trimmed := TrimCopy(lead + (key + pad1 + ":" + pad2 + value) + blanks);
            && trimmed != ""
            && Find(trimmed, ':') == Some(|key + pad1|)
            && TrimCopy(trimmed[..|key + pad1|]) == key
            && TrimCopy(trimmed[|key + pad1| + 1..]) == value
  {
    var left := key + pad1;
    assert ':' !in left;
    assert AllBlank(lead);
    TrimPadded("", key, pad1);
    assert "" + key + pad1 == left;
    if value == "" {
      var core := left + ":";
      assert lead + (key + pad1 + ":" + pad2 + value) + blanks == lead + core + (pad2 + blanks);
      TrimPadded(lead, core, pad2 + blanks);
      assert core == left + [':'] + "";
      FindAfter(left, ':', "");
      assert core[..|left|] == left && core[|left| + 1..] == "";
    } else {
      var core := left + ":" + (pad2 + value);
      assert key + pad1 + ":" + pad2 + value == core;
      TrimPadded(lead, core, blanks);
      FindAfter(left, ':', pad2 + value);
      assert core[..|left|] == left && core[|left| + 1..] == pad2 + value;
      TrimPadded(pad2, value, "");
      assert pad2 + value + "" == pad2 + value;
    }
  }

  /** A printed `key: value` line means what was printed, with any indentation, spacing, quoting and trailing comment;
      without a value, or with an empty quoted one, it opens a section. */
  lemma PrintedLine(lead: string, key: string, pad1: string, pad2: string, value: string, tail: string)
    requires Spaces(lead) && AllBlank(pad1) && AllBlank(pad2) && Tail(tail)
    requires key != "" && Written(key) && ':' !in key && Written(value)
    ensures Read(lead + (key + pad1 + ":" + pad2 + value) + tail)
         == (if StripQuotes(value) == "" then Opens(|lead|, StripQuotes(key))
             else Sets(|lead|, StripQuotes(key), StripQuotes(value)))
  {
    hide TrimCopy, Indent, StripQuotes;
    var core := key + pad1 + ":" + pad2 + value;
    NoHash(lead, key, pad1, pad2, value);
    StripTail(lead + core, tail);
    var blanks :| AllBlank(blanks) && StripComment((lead + core) + tail) == (lead + core) + blanks;
    BodyTrims(lead, key, pad1, pad2, value, blanks);
    assert (lead + core) + blanks == lead + (core + blanks);
    assert (core + blanks)[0] == key[0];
    IndentPad(lead, core + blanks);
  }

  lemma NoHash(lead: string, key: string, pad1: string, pad2: string, value: string)
    requires Spaces(lead) && AllBlank(pad1) && AllBlank(pad2) && '#' !in key && '#' !in value
    ensures '#' !in lead + (key + pad1 + ":" + pad2 + value)
  {
  }

  /** Blank lines and comment lines mean nothing. */
  lemma NoiseLine(line: string)
    requires Tail(line)
    ensures Read(line) == Nothing
  {
    hide Find, TrimLeft, TrimRight, Indent;
    StripTail("", line);
    assert "" + line == line;
    var blanks :| AllBlank(blanks) && StripComment(line) == "" + blanks;
    assert "" + blanks == blanks + "" + "";
    TrimPadded(blanks, "", "");
  }

  /** `text` writes `s` bare or in quotes of either kind. */
  predicate Spells(text: string, s: string)
  {
    && Written(text)
    && (|| text == "\"" + s + "\""
        || text == "'" + s + "'"
        || (text == s && !(|s| >= 2 && s[0] == s[|s| - 1] && (s[0] == '"' || s[0] == '\''))))
  }

  lemma SpellsStrips(text: string, s: string)
    requires Spells(text, s)
    ensures StripQuotes(text) == s
  {
    if text == "\"" + s + "\"" || text == "'" + s + "'" {
      assert text[1..|text| - 1] == s;
    }
  }

  /** The free choices in printing one line. */
  datatype Layout = Layout(lead: string, key: string, pad1: string, pad2: string, value: string, tail: string)

  function LineText(l: Layout): (line: string)
  {
    l.lead + (l.key + l.pad1 + ":" + l.pad2 + l.value) + l.tail
  }

  /** A layout of a section header (no value, or an empty one in quotes) or of a key with a nonempty value. */
  predicate LaysOut(l: Layout, m: Meaning)
  {
    && Spaces(l.lead) && AllBlank(l.pad1) && AllBlank(l.pad2) && Tail(l.tail) && l.key != "" && ':' !in l.key
    && match m
       case Nothing => false
       case Opens(indent, key) => |l.lead| == indent && Spells(l.key, key) && Spells(l.value, "")
       case Sets(indent, key, value) =>
         |l.lead| == indent && Spells(l.key, key) && Spells(l.value, value) && value != ""
  }

  /** The lines print the items in order, with blank and comment lines anywhere between them. */
  ghost predicate Prints(lines: seq<string>, ms: seq<Meaning>)
  {
    if lines == [] then ms == []
    else
      || (Tail(lines[0]) && Prints(lines[1..], ms))
      || (ms != [] && (exists l :: LaysOut(l, ms[0]) && lines[0] == LineText(l)) && Prints(lines[1..], ms[1..]))
  }

  /** Every printed line is read back as the item that it prints. */
  lemma LayoutRead(l: Layout, m: Meaning)
    requires LaysOut(l, m)
    ensures Read(LineText(l)) == m
  {
    hide Read, Tail, StripQuotes, Spaces, AllBlank;
    PrintedLine(l.lead, l.key, l.pad1, l.pad2, l.value, l.tail);
    SpellsStrips(l.key, m.key);
    SpellsStrips(l.value, if m.Sets? then m.value else "");
  }

  // ---------------------------------------------------------------- whole files

  function Meanings(lines: seq<string>): (ms: seq<Meaning>)
  {
    if lines == [] then []
    else (if Read(lines[0]).Nothing? then [] else [Read(lines[0])]) + Meanings(lines[1..])
  }

  /** The early skip of blank and comment lines changes nothing. */
  lemma SkipIsRead(s: State, line: string)
    ensures Line(s, line) == Obey(s, Read(line))
  {
    var trimmed := TrimCopy(line);
    if trimmed == "" || trimmed[0] == '#' {
      TrimmedFront(line);
      NoiseLine(line);
    }
  }

  lemma {:induction false} TrimLeftFront(line: string) returns (k: nat)
    ensures k <= |line| && AllBlank(line[..k]) && TrimLeft(line) == line[k..]
    ensures k < |line| ==> !Blank(line[k])
  {
    k := 0;
    assert line[0..] == line;
    if line != "" && Blank(line[0]) {
      var tail := line[1..];
      var n := TrimLeftFront(tail);
      hide TrimLeft;
      k := n + 1;
      forall i | 0 <= i < k ensures Blank(line[i]) { if i > 0 { assert tail[..n][i - 1] == line[i]; } }
      assert line[k..] == tail[n..];
    }
  }

  lemma {:induction false} TrimRightFront(s: string)
    ensures s != "" && !Blank(s[0]) ==> TrimRight(s) != "" && TrimRight(s)[0] == s[0]
    ensures s == "" ==> TrimRight(s) == ""
  {
    if s != "" && Blank(s[|s| - 1]) { TrimRightFront(s[..|s| - 1]); }
  }

  lemma TrimmedFront(line: string)
    requires TrimCopy(line) == "" || TrimCopy(line)[0] == '#'
    ensures Tail(line)
  {
    var k := TrimLeftFront(line);
    TrimRightFront(line[k..]);
  }

  lemma {:induction false} LinesObey(s: State, lines: seq<string>)
    ensures Lines(s, lines) == ObeyAll(s, Meanings(lines))
    decreases |lines|
  {
    if lines != [] {
      SkipIsRead(s, lines[0]);
      hide Read, Line, Obey;
      LinesObey(Line(s, lines[0]), lines[1..]);
      if Read(lines[0]).Nothing? {
        ObeyNothing(s);
        assert Meanings(lines) == [] + Meanings(lines[1..]) == Meanings(lines[1..]);
      } else {
        assert Meanings(lines)[1..] == Meanings(lines[1..]);
      }
    }
  }

  lemma ObeyNothing(s: State)
    ensures Obey(s, Nothing) == s
  {
  }

  /** A line that one `fgets` reads whole. */
  predicate FileLine(line: string)
  {
    && 1 <= |line| <= BUFFER && line[|line| - 1] == '\n' && '\0' !in line
    && forall i :: 0 <= i < |line| - 1 ==> line[i] != '\n'
  }

  /** A last line that the file does not end with a newline. */
  predicate LastLine(line: string)
  {
    1 <= |line| <= BUFFER && '\n' !in line && '\0' !in line
  }

  predicate FileLines(lines: seq<string>)
  {
    forall i :: 0 <= i < |lines| ==> FileLine(lines[i]) || (i == |lines| - 1 && LastLine(lines[i]))
  }

  function FileText(lines: seq<string>): (text: string)
  {
    if lines == [] then "" else lines[0] + FileText(lines[1..])
  }

  lemma {:induction false} TakenLine(line: string, rest: string, limit: nat)
    requires 1 <= |line| <= limit && line[|line| - 1] == '\n'
    requires forall i :: 0 <= i < |line| - 1 ==> line[i] != '\n'
    ensures Taken(line + rest, limit) == |line|
  {
    if |line| > 1 {
      assert (line + rest)[1..] == line[1..] + rest;
      TakenLine(line[1..], rest, limit - 1);
    }
  }

  /** Without a newline, a read stops at the limit or at the end. */
  lemma {:induction false} TakenUnbroken(a: string, rest: string, limit: nat)
    requires '\n' !in a && |a| <= limit && (|a| == limit || rest == "")
    ensures Taken(a + rest, limit) == |a|
  {
    if a != "" {
      assert (a + rest)[1..] == a[1..] + rest;
      TakenUnbroken(a[1..], rest, limit - 1);
    }
  }

  lemma {:induction false} ChunksAreLines(lines: seq<string>)
    requires FileLines(lines)
    ensures Chunks(FileText(lines)) == lines
  {
    if lines != [] {
      var line, rest := lines[0], FileText(lines[1..]);
      if FileLine(line) {
        TakenLine(line, rest, BUFFER);
      } else {
        assert lines[1..] == [];
        TakenUnbroken(line, rest, BUFFER);
      }
      assert (line + rest)[..|line|] == line && (line + rest)[|line|..] == rest;
      ChunksAreLines(lines[1..]);
    }
  }

  lemma {:induction false} PrintsMeanings(lines: seq<string>, ms: seq<Meaning>)
    requires Prints(lines, ms)
    ensures Meanings(lines) == ms
  {
    hide Read, Tail, LaysOut, LineText;
    if lines != [] {
      if Tail(lines[0]) && Prints(lines[1..], ms) {
        NoiseLine(lines[0]);
        PrintsMeanings(lines[1..], ms);
      } else {
        var l :| LaysOut(l, ms[0]) && lines[0] == LineText(l);
        LayoutRead(l, ms[0]);
        LaidOutSays(l, ms[0]);
        PrintsMeanings(lines[1..], ms[1..]);
        assert [ms[0]] + ms[1..] == ms;
      }
    }
  }

  lemma LaidOutSays(l: Layout, m: Meaning)
    requires LaysOut(l, m)
    ensures !m.Nothing?
  {
  }

  /** Loading a file that prints a tree, with growing indents, any spacing and quoting, and blank or comment lines
      anywhere, gives exactly the tree's flat map of dotted paths, later writes winning. */
  lemma PrintedTreeLoads(forest: seq<Node>, indent: nat, lines: seq<string>)
    requires FileLines(lines)
    requires AllIndented(forest, indent) && Prints(lines, Emit(forest, indent))
    ensures Load(FileText(lines)) == Flatten(forest, [], map[])
  {
    hide Chunks, Lines, Meanings, Emit, FileText, Flatten, Prints;
    ChunksAreLines(lines);
    PrintsMeanings(lines, Emit(forest, indent));
    LinesObey(State([], map[]), lines);
    assert Names([]) == [];
    ForestLoads(State([], map[]), forest, indent, []);
  }

  // ---------------------------------------------------------------- lines longer than the buffer

  lemma {:induction false} TrimLeftKeeps(s: string, c: char)
    requires c !in s
    ensures c !in TrimLeft(s)
  {
    if s != [] && Blank(s[0]) { TrimLeftKeeps(s[1..], c); }
  }

  lemma {:induction false} TrimRightKeeps(s: string, c: char)
    requires c !in s
    ensures c !in TrimRight(s)
  {
    if s != [] && Blank(s[|s| - 1]) { TrimRightKeeps(s[..|s| - 1], c); }
  }

  /** A line without a colon before its comment says nothing. */
  lemma NoColonNothing(line: string)
    requires ':' !in StripComment(line)
    ensures Read(line) == Nothing
  {
    TrimLeftKeeps(StripComment(line), ':');
    TrimRightKeeps(TrimLeft(StripComment(line)), ':');
  }

  /** Text without a colon loads nothing, however it is cut. */
  lemma {:induction false} NoColonLoads(s: State, text: string)
    requires ':' !in text
    ensures Lines(s, Chunks(text)) == s
    decreases |text|
  {
    if text != "" {
      hide Read, Line, Obey, Taken;
      var n := Taken(text, BUFFER);
      var line := UntilNul(text[..n]);
      SkipIsRead(s, line);
      NoColonNothing(line);
      ObeyNothing(s);
      NoColonLoads(s, text[n..]);
    }
  }

  /** Text of ordinary characters. */
  predicate Solid(s: string)
  {
    forall i :: 0 <= i < |s| ==> !Blank(s[i]) && s[i] !in "#:\0\"'"
  }

  /** One `key:value` line with no newline cut off, and nothing but the rest of the value behind it. */
  lemma FirstChunkLoads(key: string, value: string, tail: string, rest: string)
    requires key != "" && value != "" && Solid(key) && Solid(value) && (tail == "" || tail == "\n")
    requires ':' !in rest && Chunks(key + ":" + value + tail + rest) == [key + ":" + value + tail] + Chunks(rest)
    ensures Load(key + ":" + value + tail + rest) == map[key := value]
  {
    var line := key + ":" + value + tail;
    var start := State([], map[]);
    LineSets(key, value, tail);
    SkipIsRead(start, line);
    assert Chunks(line + rest)[1..] == Chunks(rest);
    hide Read, Chunks, Solid;
    NoColonLoads(Line(start, line), rest);
  }

  lemma LineSets(key: string, value: string, tail: string)
    requires key != "" && value != "" && Solid(key) && Solid(value) && (tail == "" || tail == "\n")
    ensures Read(key + ":" + value + tail) == Sets(0, key, value)
  {
    hide Read;
    assert tail[..|tail|] == tail;
    PrintedLine("", key, "", "", value, tail);
    assert "" + (key + "" + ":" + "" + value) + tail == key + ":" + value + tail;
  }

  /** The limit of the line buffer is real: a value is stored as far as its first 1023-character read goes, and so comes
      back exactly when it fits. */
  lemma LongValueCut(key: string, value: string)
    requires key != "" && value != "" && Solid(key) && Solid(value) && |key| + 1 < BUFFER
    ensures var room := BUFFER - |key| - 1;
            && Load(key + ":" + value + "\n") == map[key := if |value| <= room then value else value[..room]]
            && (Load(key + ":" + value + "\n") == map[key := value] <==> |value| <= room)
  {
    hide Load, Chunks;
    var room := BUFFER - |key| - 1;
    var text := key + ":" + value + "\n";
    if |value| < room {
      TakenLine(text, "", BUFFER);
      assert text + "" == text;
      WholeChunk(text, "");
      FirstChunkLoads(key, value, "\n", "");
    } else {
      var stored, rest := value[..room], value[room..] + "\n";
      var line := key + ":" + stored;
      assert value == stored + value[room..];
      assert text == line + rest == key + ":" + stored + "" + rest;
      assert |value| == room ==> stored == value;
      TakenUnbroken(line, rest, BUFFER);
      WholeChunk(line, rest);
      assert line + "" == line;
      FirstChunkLoads(key, stored, "", rest);
      assert map[key := stored][key] == stored;
    }
  }

  lemma WholeChunk(line: string, rest: string)
    requires line != "" && '\0' !in line && Taken(line + rest, BUFFER) == |line|
    ensures Chunks(line + rest) == [line] + Chunks(rest)
  {
    assert (line + rest)[..|line|] == line && (line + rest)[|line|..] == rest;
  }

  /** What follows a NUL in a line is not seen. */
  lemma NulHides(line: string, hidden: string, rest: string)
    requires '\n' !in line && '\0' !in line && '\n' !in hidden && |line| + |hidden| + 2 <= BUFFER
    ensures Chunks(line + "\0" + hidden + "\n" + rest) == [line] + Chunks(rest)
  {
    var whole := line + "\0" + hidden + "\n";
    TakenLine(whole, rest, BUFFER);
    assert (whole + rest)[..|whole|] == whole && (whole + rest)[|whole|..] == rest;
    assert whole == line + ['\0'] + (hidden + "\n");
    FindAfter(line, '\0', hidden + "\n");
    assert whole[..|line|] == line;
  }

  // ---------------------------------------------------------------- the loader object

  class Loader {
    var sections: seq<Section>
    var entries: map<string, string>

    function Value(): (s: State)
      reads this
    {
      State(sections, entries)
    }

    constructor ()
      ensures Value() == State([], map[])
    {
      sections, entries := [], map[];
    }

    /** Takes the comment off, splits at the first colon, closes deeper sections, then opens a section or stores a
        value under the path of the open ones. Lines without a colon are ignored. */
    method ParseYamlLine(line: string)
      requires Increasing(sections)
      modifies this
      ensures Value() == Obey(old(Value()), Read(line)) && Increasing(sections)
    {
      var m := Interpret(line);
      hide Read, PathOf, PopTo;
      if m == Nothing { return; }
      CloseSections(m.indent);
      if m.Opens? {
        sections := sections + [Section(m.indent, m.key)];
        return;
      }
      var path := CurrentPath();
      if path != "" { path := path + "."; }
      assert "" + m.key == m.key;
      path := path + m.key;
      entries := entries[path := m.value];
    }

    method Interpret(line: string) returns (m: Meaning)
      ensures m == Read(line)
    {
      hide Indent, TrimCopy, StripQuotes;
      var comment := Find(line, '#');
      var bare := if comment.Some? then line[..comment.value] else line;
      var trimmed := TrimCopy(bare);
      if trimmed == "" { return Nothing; }
      var indent := CountIndent(bare);
      var delimiter := Find(trimmed, ':');
      if delimiter == None { return Nothing; }
      var key := StripQuotes(TrimCopy(trimmed[..delimiter.value]));
      var value := StripQuotes(TrimCopy(trimmed[delimiter.value + 1..]));
      return if value == "" then Opens(indent, key) else Sets(indent, key, value);
    }

    method CloseSections(indent: nat)
      requires Increasing(sections)
      modifies this`sections
      ensures sections == PopTo(old(sections), indent) && Increasing(sections)
      ensures forall i :: 0 <= i < |sections| ==> sections[i].indent < indent
    {
      PopToKeeps(sections, indent);
      while sections != [] && sections[|sections| - 1].indent >= indent
        invariant PopTo(sections, indent) == PopTo(old(sections), indent)
        decreases |sections|
      {
        sections := sections[..|sections| - 1];
      }
    }

    method CurrentPath() returns (path: string)
      ensures path == PathOf(sections)
    {
      path := "";
      var i := 0;
      assert sections[..0] == [];
      while i < |sections|
        invariant 0 <= i <= |sections| && path == PathOf(sections[..i])
      {
        assert sections[..i + 1][..i] == sections[..i];
        if path != "" { path := path + "."; }
        path := path + sections[i].name;
        i := i + 1;
      }
      assert sections[..i] == sections;
    }

    /** The `fgets` loop over a file's text. */
    method LoadText(text: string)
      modifies this
      ensures entries == Load(text) && Increasing(sections)
    {
      sections, entries := [], map[];
      var rest := text;
      while rest != ""
        invariant Increasing(sections)
        invariant Lines(Value(), Chunks(rest)) == Lines(State([], map[]), Chunks(text))
        decreases |rest|
      {
        var n := Taken(rest, BUFFER);
        var line := UntilNul(rest[..n]);
        var trimmed := TrimCopy(line);
        assert Chunks(rest) == [line] + Chunks(rest[n..]);
        if !(trimmed == "" || trimmed[0] == '#') {
          ParseYamlLine(line);
        }
        assert ([line] + Chunks(rest[n..]))[1..] == Chunks(rest[n..]);
        rest := rest[n..];
      }
    }
  }
}
