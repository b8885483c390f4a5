/**
 The reader of decrypted env files: KEY=value lines, blank lines and # comments.
 Characters stand for the bytes of the text; only spaces and tabs are trimmed.
 The text is cut at newlines into one reused buffer, each line is cut at its
 first equals sign, and lines without a key are dropped. Printing is the other
 direction: one KEY=value line for each pair.
 */
module EnvLines {
  import opened Wrappers

  datatype EnvLine = EnvLine(key: string, value: string)

  predicate Blank(c: char) {
    c == ' ' || c == '\t'
  }

  predicate Trimmed(s: string) {
    s == "" || (!Blank(s[0]) && !Blank(s[|s| - 1]))
  }

  function Trim(s: string): (r: string)
    ensures Trimmed(r) && (Trimmed(s) ==> r == s)
  {
    if s == "" then ""
    else if Blank(s[0]) then Trim(s[1..])
    else if Blank(s[|s| - 1]) then Trim(s[..|s| - 1])
    else s
  }

  /** Trimming takes away blanks only, and only from the ends. */
  lemma {:induction false} TrimIsMiddle(s: string) returns (left: string, right: string)
    ensures s == left + Trim(s) + right
    ensures forall c :: c in left + right ==> c == ' ' || c == '\t'
    ensures var r := Trim(s); r != "" ==> r[0] != ' ' && r[0] != '\t' && r[|r| - 1] != ' ' && r[|r| - 1] != '\t'
  {
    if s == "" {
      left, right := "", "";
    } else if Blank(s[0]) {
      var rest, end := TrimIsMiddle(s[1..]);
      left, right := [s[0]] + rest, end;
      assert forall c :: c in left ==> c == s[0] || c in rest + end;
      assert forall c :: c in right ==> c in rest + end;
    } else if Blank(s[|s| - 1]) {
      var start, rest := TrimIsMiddle(s[..|s| - 1]);
      assert s == s[..|s| - 1] + [s[|s| - 1]];
      left, right := start, rest + [s[|s| - 1]];
      assert forall c :: c in left ==> c in start + rest;
      assert forall c :: c in right ==> c == s[|s| - 1] || c in start + rest;
    } else {
      left, right := "", "";
    }
  }

  method TrimSpace(s: string) returns (r: string)
    ensures r == Trim(s)
  {
    var start, end := 0, |s|;
    assert s[start..end] == s;
    while start < end && Blank(s[start])
      invariant start <= end && Trim(s[start..end]) == Trim(s)
    {
      assert s[start..end][1..] == s[start + 1..end];
      start := start + 1;
    }
    while start < end && Blank(s[end - 1])
      invariant start <= end <= |s| && Trim(s[start..end]) == Trim(s)
      invariant start < end ==> !Blank(s[start])
    {
      assert s[start..end][..end - start - 1] == s[start..end - 1];
      end := end - 1;
    }
    r := s[start..end];
  }

  /** `i` is where the first '=' of `s` stands. */
  ghost predicate FirstEquals(s: string, i: int) {
    0 <= i < |s| && s[i] == '=' && '=' !in s[..i]
  }

  function ParseLine(s: string): Option<EnvLine> {
    var t := Trim(s);
    if t == "" || t[0] == '#' then None else Pair(t, 0)
  }

  function Pair(t: string, from: nat): Option<EnvLine>
    requires from <= |t|
    decreases |t| - from
  {
    if from == |t| then None
    else if t[from] != '=' then Pair(t, from + 1)
    else if Trim(t[..from]) == "" then None
    else Some(EnvLine(Trim(t[..from]), Trim(t[from + 1..])))
  }

  method ReadLine(s: string) returns (line: Option<EnvLine>)
    ensures line == ParseLine(s)
  {
    var t := TrimSpace(s);
    if t == "" || t[0] == '#' { return None; }
    for i := 0 to |t|
      invariant Pair(t, i) == ParseLine(s)
    {
      if t[i] == '=' {
        var key := TrimSpace(t[..i]);
        var value := TrimSpace(t[i + 1..]);
        return if key != "" then Some(EnvLine(key, value)) else None;
      }
    }
    return None;
  }

  // ---- the whole text ----

  predicate OneLine(s: string) {
    '\n' !in s
  }

  function Glue(c: char, rest: seq<string>): seq<string>
    requires |rest| > 0
  {
    if c == '\n' then [""] + rest else [[c] + rest[0]] + rest[1..]
  }

  /** The pieces between newlines. */
  function Split(s: string): (parts: seq<string>)
    ensures |parts| > 0
  {
    if s == "" then [""]
    else
      Glue(s[0], Split(s[1..]))
  }

  function Join(parts: seq<string>): string
    requires |parts| > 0
  {
    if |parts| == 1 then parts[0] else parts[0] + "\n" + Join(parts[1..])
  }

  /** Splitting undoes joining and joining undoes splitting: `Split(s)` is the one
      list of newline-free pieces that joins to `s`. */
  lemma {:induction false} JoinSplit(s: string)
    ensures Join(Split(s)) == s && forall p :: p in Split(s) ==> OneLine(p)
  {
    if s != "" {
      JoinSplit(s[1..]);
      var rest := Split(s[1..]);
      assert s == [s[0]] + s[1..];
      if s[0] == '\n' {
        assert Split(s)[1..] == rest;
      } else {
        assert Split(s)[1..] == rest[1..];
        assert forall p :: p in Split(s) ==> p == Split(s)[0] || p in rest;
        assert OneLine(rest[0]);
      }
    }
  }

  lemma {:induction false} SplitJoin(parts: seq<string>)
    requires |parts| > 0 && forall p :: p in parts ==> OneLine(p)
    ensures Split(Join(parts)) == parts
    decreases |parts|, |parts[0]|
  {
    var s, first := Join(parts), parts[0];
    if first == "" && |parts| > 1 {
      assert s[1..] == Join(parts[1..]);
      SplitJoin(parts[1..]);
    } else if first != "" {
      var shorter := parts[0 := first[1..]];
      assert shorter[1..] == parts[1..];
      assert s == [first[0]] + Join(shorter);
      assert forall p :: p in shorter ==> p == first[1..] || p in parts;
      assert first in parts;
      SplitJoin(shorter);
      SplitCons(first[0], Join(shorter));
      assert first[0] in first && [first[0]] + first[1..] == first;
    }
  }

  function Parsed(parts: seq<string>): seq<EnvLine> {
    if parts == [] then []
    else
      match ParseLine(parts[0])
      case Some(line) => [line] + Parsed(parts[1..])
      case None => Parsed(parts[1..])
  }

  lemma {:induction false} ParsedAppend(parts: seq<string>, last: string)
    ensures Parsed(parts + [last]) == Parsed(parts) + match ParseLine(last) { case Some(l) => [l] case None => [] }
  {
    if parts != [] {
      ParsedAppend(parts[1..], last);
      assert (parts + [last])[1..] == parts[1..] + [last];
    }
  }

  lemma SplitCons(c: char, s: string)
    ensures Split([c] + s) == Glue(c, Split(s))
  {
    assert ([c] + s)[1..] == s;
  }

  /** One more character ends the last piece or starts a new one. */
  function Extend(parts: seq<string>, c: char): seq<string>
    requires |parts| > 0
  {
    if c == '\n' then parts + [""] else parts[..|parts| - 1] + [parts[|parts| - 1] + [c]]
  }

  lemma GlueExtend(a: char, parts: seq<string>, c: char)
    requires |parts| > 0
    ensures Glue(a, Extend(parts, c)) == Extend(Glue(a, parts), c)
  {
    if a != '\n' && c != '\n' && |parts| == 1 {
      assert [a] + (parts[0] + [c]) == ([a] + parts[0]) + [c];
    }
  }

  lemma {:induction false} SplitAppend(s: string, c: char)
    ensures Split(s + [c]) == Extend(Split(s), c)
  {
    if s == "" {
      SplitCons(c, "");
      assert s + [c] == [c] + "";
    } else {
      hide Split;
      SplitAppend(s[1..], c);
      SplitCons(s[0], s[1..] + [c]);
      SplitCons(s[0], s[1..]);
      assert s + [c] == [s[0]] + (s[1..] + [c]) && s == [s[0]] + s[1..];
      GlueExtend(s[0], Split(s[1..]), c);
    }
  }

  /** The loop over the bytes, with one buffer used for every line. */
  method ParseEnvLines(s: string) returns (lines: seq<EnvLine>)
    ensures lines == Parsed(Split(s))
  {
    lines := [];
    var buf, n := new char[|s|], 0;
    ghost var done: seq<string> := [];
    assert s[..0] == "";
    for i := 0 to |s|
      invariant n <= i && Split(s[..i]) == done + [buf[..n]]
      invariant lines == Parsed(done)
    {
      assert s[..i + 1] == s[..i] + [s[i]];
      SplitAppend(s[..i], s[i]);
      if s[i] == '\n' {
        var line := ReadLine(buf[..n]);
        ParsedAppend(done, buf[..n]);
        if line.Some? { lines := lines + [line.value]; }
        done := done + [buf[..n]];
        n := 0;
      } else {
        ghost var was := buf[..n];
        buf[n] := s[i];
        n := n + 1;
        assert buf[..n] == was + [s[i]];
      }
    }
    assert s[..|s|] == s;
    var line := ReadLine(buf[..n]);
    ParsedAppend(done, buf[..n]);
    if line.Some? { lines := lines + [line.value]; }
  }

  // ---- round trip ----

  function PrintLine(line: EnvLine): string {
    line.key + "=" + line.value
  }

  /** What a line must be like to come back as it was written. */
  predicate Plain(line: EnvLine) {
    && Trimmed(line.key) && Trimmed(line.value)
    && line.key != "" && line.key[0] != '#' && '=' !in line.key
  }

  lemma {:induction false} PairAt(t: string, from: nat, i: nat)
    requires from <= i && FirstEquals(t, i)
    ensures Pair(t, from) == if Trim(t[..i]) == "" then None else Some(EnvLine(Trim(t[..i]), Trim(t[i + 1..])))
    decreases i - from
  {
    if from < i {
      assert t[from] in t[..i];
      PairAt(t, from + 1, i);
    }
  }

  lemma {:induction false} PairSplits(t: string, from: nat)
    requires from <= |t| && '=' !in t[..from] && Pair(t, from).Some?
    ensures Pair(t, from).value.key != ""
    ensures exists i: nat :: FirstEquals(t, i) && Pair(t, from).value == EnvLine(Trim(t[..i]), Trim(t[i + 1..]))
    decreases |t| - from
  {
    if t[from] == '=' {
      assert FirstEquals(t, from);
    } else {
      assert t[..from + 1] == t[..from] + [t[from]];
      PairSplits(t, from + 1);
    }
  }

  lemma TrimOnlyDrops(s: string)
    ensures forall c :: c in Trim(s) ==> c in s
  {
    var left, right := TrimIsMiddle(s);
    var whole := left + Trim(s) + right;
    assert forall c :: c in Trim(s) ==> c in whole;
  }

  lemma {:induction false} TrimKeepsFirst(s: string)
    requires Trim(s) != "" && !Blank(s[0])
    ensures Trim(s)[0] == s[0]
  {
    if Blank(s[|s| - 1]) { TrimKeepsFirst(s[..|s| - 1]); }
  }

  /** Whatever the text, a line that parses is plain. */
  lemma ParsedIsPlain(s: string)
    requires ParseLine(s).Some?
    ensures Plain(ParseLine(s).value)
  {
    var t, key := Trim(s), ParseLine(s).value.key;
    PairSplits(t, 0);
    var i: nat :| FirstEquals(t, i) && ParseLine(s).value == EnvLine(Trim(t[..i]), Trim(t[i + 1..]));
    TrimKeepsFirst(t[..i]);
    TrimOnlyDrops(t[..i]);
  }

  /** A printed pair reads back as itself exactly when its parts are trimmed and
      its key is not empty, has no '=' and does not begin a comment. */
  lemma PrintedLineReadsBackIffPlain(line: EnvLine)
    ensures ParseLine(PrintLine(line)) == Some(line) <==> Plain(line)
  {
    var s, k := PrintLine(line), |line.key|;
    var t := Trim(s);
    if Plain(line) {
      assert s[0] == line.key[0] && s[|s| - 1] == if line.value == "" then '=' else line.value[|line.value| - 1];
      assert t == s;
      assert s[..k] == line.key && s[k + 1..] == line.value;
      PairAt(s, 0, k);
    } else if ParseLine(s).Some? {
      ParsedIsPlain(s);
    }
  }

  function Print(lines: seq<EnvLine>): string {
    if lines == [] then "" else PrintLine(lines[0]) + "\n" + Print(lines[1..])
  }

  function Printed(lines: seq<EnvLine>): (parts: seq<string>)
    ensures |parts| == |lines| + 1
  {
    if lines == [] then [""] else [PrintLine(lines[0])] + Printed(lines[1..])
  }

  lemma {:induction false} PrintJoins(lines: seq<EnvLine>)
    ensures Print(lines) == Join(Printed(lines))
  {
    if lines != [] {
      PrintJoins(lines[1..]);
      assert Printed(lines)[1..] == Printed(lines[1..]);
    }
  }

  lemma {:induction false} PrintedParses(lines: seq<EnvLine>)
    requires forall l :: l in lines ==> Plain(l)
    ensures Parsed(Printed(lines)) == lines
  {
    if lines != [] {
      PrintedParses(lines[1..]);
      PrintedLineReadsBackIffPlain(lines[0]);
      assert Printed(lines)[1..] == Printed(lines[1..]);
    }
  }

  lemma {:induction false} PrintedOneLine(lines: seq<EnvLine>, p: string)
    requires forall l :: l in lines ==> OneLine(l.key) && OneLine(l.value)
    requires p in Printed(lines)
    ensures OneLine(p)
  {
    if lines != [] && p != PrintLine(lines[0]) {
      PrintedOneLine(lines[1..], p);
    }
  }

  /** Parsing what was printed returns the list, in order, duplicates included. */
  lemma RoundTrip(lines: seq<EnvLine>)
    requires forall l :: l in lines ==> Plain(l) && OneLine(l.key) && OneLine(l.value)
    ensures Parsed(Split(Print(lines))) == lines
  {
    PrintJoins(lines);
    forall p | p in Printed(lines) ensures OneLine(p) {
      PrintedOneLine(lines, p);
    }
    SplitJoin(Printed(lines));
    PrintedParses(lines);
  }

  lemma {:induction false} ParsedArePlain(parts: seq<string>, line: EnvLine)
    requires line in Parsed(parts) && forall p :: p in parts ==> OneLine(p)
    ensures Plain(line) && OneLine(line.key) && OneLine(line.value)
  {
    var first := ParseLine(parts[0]);
    if first == Some(line) {
      ParsedIsPlain(parts[0]);
      ParsedFromLine(parts[0]);
      assert OneLine(parts[0]);
    } else {
      ParsedArePlain(parts[1..], line);
    }
  }

  lemma ParsedFromLine(s: string)
    requires ParseLine(s).Some?
    ensures forall c :: c in ParseLine(s).value.key || c in ParseLine(s).value.value ==> c in s
  {
    var t := Trim(s);
    PairSplits(t, 0);
    var i: nat :| FirstEquals(t, i) && ParseLine(s).value == EnvLine(Trim(t[..i]), Trim(t[i + 1..]));
    TrimOnlyDrops(s);
    TrimOnlyDrops(t[..i]);
    TrimOnlyDrops(t[i + 1..]);
  }

  /** Printing what any text parsed to and parsing that again changes nothing. */
  lemma ReparseIsStable(s: string)
    ensures var lines := Parsed(Split(s)); Parsed(Split(Print(lines))) == lines
  {
    JoinSplit(s);
    forall line | line in Parsed(Split(s)) ensures Plain(line) && OneLine(line.key) && OneLine(line.value) {
      ParsedArePlain(Split(s), line);
    }
    RoundTrip(Parsed(Split(s)));
  }

  /** One text in full: a comment, a line without "=", a line with blanks and a second "=", a line without a key. */
  lemma ParsedText()
    ensures Parsed(Split("#a=b\nc\n\td = e=f \n =g")) == [EnvLine("d", "e=f")]
  {
    var a, b, c, d := "#a=b", "c", "\td = e=f ", " =g";
    var parts := [a, b, c, d];
    assert "#a=b\nc\n\td = e=f \n =g" == Join(parts) by { JoinFour(a, b, c, d); }
    SplitJoin(parts);
    CommentLine(a);
    NoEquals(b);
    TwoEquals(c);
    NoKey(d);
    hide ParseLine, Split, Join, Parsed;
    ThirdParses(a, b, c, d, EnvLine("d", "e=f"));
  }

  lemma ThirdParses(a: string, b: string, c: string, d: string, line: EnvLine)
    requires ParseLine(a).None? && ParseLine(b).None? && ParseLine(c) == Some(line) && ParseLine(d).None?
    ensures Parsed([a, b, c, d]) == [line]
  {
    hide ParseLine;
    assert [a, b, c, d][1..] == [b, c, d] && [b, c, d][1..] == [c, d] && [c, d][1..] == [d] && [d][1..] == [];
    assert Parsed([]) == [];
    assert Parsed([d]) == [];
    assert Parsed([c, d]) == [line];
    assert Parsed([b, c, d]) == [line];
  }

  lemma JoinFour(a: string, b: string, c: string, d: string)
    ensures Join([a, b, c, d]) == a + "\n" + b + "\n" + c + "\n" + d
  {
    assert [a, b, c, d][1..] == [b, c, d] && [b, c, d][1..] == [c, d] && [c, d][1..] == [d];
    assert Join([d]) == d;
    assert Join([c, d]) == c + "\n" + d;
    assert Join([b, c, d]) == b + "\n" + (c + "\n" + d);
  }

  lemma CommentLine(s: string)
    requires s == "#a=b"
    ensures ParseLine(s).None?
  {
    assert s[0] == '#' && s[3] == 'b';
  }

  lemma NoEquals(s: string)
    requires s == "c"
    ensures ParseLine(s).None?
  {
    assert s[0] == 'c';
    assert Pair(s, 1).None?;
  }

  lemma TwoEquals(s: string)
    requires s == "\td = e=f "
    ensures ParseLine(s) == Some(EnvLine("d", "e=f"))
  {
    var t, key, value := "d = e=f", "d ", " e=f";
    assert s[0] == '\t' && s[1..] == t + " " && (t + " ")[..7] == t && (t + " ")[0] == 'd' && (t + " ")[7] == ' ';
    assert t[0] == 'd' && t[6] == 'f';
    assert Trim(t) == t;
    assert Trim(t + " ") == t;
    assert FirstEquals(t, 2);
    PairAt(t, 0, 2);
    assert t[..2] == key && t[3..] == value;
    assert key[..1] == "d" && key[0] == 'd' && key[1] == ' ' && Trim("d") == "d";
    assert Trim(key) == "d";
    assert value[1..] == "e=f" && value[0] == ' ' && "e=f"[0] == 'e' && "e=f"[2] == 'f';
    assert Trim(value) == "e=f";
  }

  lemma NoKey(s: string)
    requires s == " =g"
    ensures ParseLine(s).None?
  {
    assert s[0] == ' ' && s[1..] == "=g" && "=g"[0] == '=' && "=g"[1] == 'g';
    assert Trim("=g") == "=g" && "=g"[..0] == "";
    assert Trim(s) == "=g";
  }
}
