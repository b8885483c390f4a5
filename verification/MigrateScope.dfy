/**
 The script that moves Go files to the two-axis SCOPE annotation. A file is its
 lines; the description chosen from the path and the old annotation is a parameter.
 */
module MigrateScope {
  import opened Wrappers

  type Lines = seq<string>

  // ---- what a line is ----

  predicate Space(c: char) {
    c == ' ' || c == '\t' || c == '\r' || c == '\U{0b}' || c == '\U{0c}' || '\U{1c}' <= c <= '\U{1f}'
  }

  predicate Word(c: char) {
    'a' <= c <= 'z' || 'A' <= c <= 'Z' || '0' <= c <= '9' || c == '_'
  }

  predicate Starts(prefix: string, line: string) {
    prefix <= line
  }

  /** The text from its first visible character. */
  function Visible(s: string): string {
    if s != "" && Space(s[0]) then Visible(s[1..]) else s
  }

  predicate Comment(line: string) {
    Starts("//", line)
  }

  predicate Package(line: string) {
    Starts("package ", line)
  }

  predicate Scope(line: string) {
    Comment(line) && Starts("SCOPE:", Visible(line[2..]))
  }

  datatype Layer = Infra | Feature

  datatype Removal = Core | Plugin | WholeFeature

  datatype Axes = Axes(layer: Layer, removal: Removal)

  function Head(axes: Axes): string {
    "SCOPE:layer=" + (match axes.layer case Infra => "infra" case Feature => "feature")
    + ",removal=" + (match axes.removal case Core => "core" case Plugin => "plugin" case WholeFeature => "feature")
  }

  predicate HasAxes(body: string, axes: Axes) {
    Starts(Head(axes), body) && (|body| == |Head(axes)| || !Word(body[|Head(axes)|]))
  }

  /** The canonical two-axis form. */
  predicate Canonical(line: string) {
    Comment(line) && exists layer: Layer, removal: Removal :: HasAxes(Visible(line[2..]), Axes(layer, removal))
  }

  /** A line the leading comment group may contain. */
  predicate Group(line: string) {
    Comment(line) || Visible(line) == ""
  }

  predicate Banner(line: string) {
    Starts("// Code generated by templ", line)
  }

  predicate BannerPart(line: string) {
    Starts("// templ:", line) || Starts("// Code generated", line) || Visible(line) == ""
  }

  /** A comment line that goes on with the sentence of the SCOPE line before it. */
  predicate Continues(line: string) {
    && Comment(line) && !Scope(line)
    && var body := Visible(line[2..]);
       body != "" && !('A' <= body[0] <= 'Z' && body[0] != 'A' && body[0] != 'I')
  }

  function Render(axes: Axes, description: string): string {
    "// " + Head(axes) + if description == "" then "" else " \U{2014} " + description
  }

  datatype Kind = PackageLine | Annotation | Continuation | BannerLine | BannerTail

  predicate Is(kind: Kind, line: string) {
    match kind
    case PackageLine => Package(line)
    case Annotation => Scope(line)
    case Continuation => Continues(line)
    case BannerLine => Banner(line)
    case BannerTail => BannerPart(line)
  }

  // ---- where things are ----

  /** The first line from `from` on that is of the kind asked for, or the end. */
  function Find(lines: Lines, kind: Kind, from: nat): (r: nat)
    requires from <= |lines|
    ensures from <= r <= |lines| && (r < |lines| ==> Is(kind, lines[r]))
    decreases |lines| - from
  {
    if from == |lines| || Is(kind, lines[from]) then from else Find(lines, kind, from + 1)
  }

  /** Where the run of lines of that kind from `from` on, below `limit`, ends. */
  function RunEnd(lines: Lines, kind: Kind, from: nat, limit: nat): (r: nat)
    requires from <= limit <= |lines|
    ensures from <= r <= limit && (r < limit ==> !Is(kind, lines[r]))
    decreases limit - from
  {
    if from < limit && Is(kind, lines[from]) then RunEnd(lines, kind, from + 1, limit) else from
  }

  /** Where the leading group right above line `pkg` begins. */
  function GroupStart(lines: Lines, pkg: nat): (r: nat)
    requires pkg <= |lines|
    ensures r <= pkg && (r > 0 ==> !Group(lines[r - 1]))
  {
    if pkg > 0 && Group(lines[pkg - 1]) then GroupStart(lines, pkg - 1) else pkg
  }

  lemma {:induction false} NoneBefore(lines: Lines, kind: Kind, from: nat, k: nat)
    requires from <= k < |lines| && k < Find(lines, kind, from)
    ensures !Is(kind, lines[k])
    decreases k - from
  {
    if from < k { NoneBefore(lines, kind, from + 1, k); }
  }

  lemma {:induction false} AllInRun(lines: Lines, kind: Kind, from: nat, limit: nat, k: nat)
    requires limit <= |lines| && from <= k < limit && k < RunEnd(lines, kind, from, limit)
    ensures Is(kind, lines[k])
    decreases k - from
  {
    if from < k { AllInRun(lines, kind, from + 1, limit, k); }
  }

  lemma {:induction false} AllInGroup(lines: Lines, pkg: nat, k: nat)
    requires pkg <= |lines| && GroupStart(lines, pkg) <= k < pkg
    ensures Group(lines[k])
  {
    if k < pkg - 1 { AllInGroup(lines, pkg - 1, k); }
  }

  // ---- the migration ----

  function ScopeAt(lines: Lines): (s: nat)
    ensures s <= |lines|
  {
    Find(lines, Annotation, 0)
  }

  /** Where the first SCOPE line's continuations end. */
  function BlockEnd(lines: Lines): (e: nat)
    ensures ScopeAt(lines) <= e <= |lines|
  {
    var s := ScopeAt(lines);
    if s == |lines| then s else RunEnd(lines, Continuation, s + 1, |lines|)
  }

  function Removed(lines: Lines, s: nat, e: nat): (rest: Lines)
    requires s <= e <= |lines|
    ensures |rest| == |lines| - (e - s)
  {
    lines[..s] + lines[e..]
  }

  /** The file without its first SCOPE line and that line's continuations. */
  function Cut(lines: Lines): Lines {
    Removed(lines, ScopeAt(lines), BlockEnd(lines))
  }

  /** Where the new line goes. */
  function Slot(lines: Lines): nat
    requires Find(lines, PackageLine, 0) < |lines|
  {
    var pkg := Find(lines, PackageLine, 0);
    var banner := Find(lines, BannerLine, 0);
    if banner < pkg then RunEnd(lines, BannerTail, banner + 1, pkg) else GroupStart(lines, pkg)
  }

  function OldScope(lines: Lines): Option<string> {
    var s := ScopeAt(lines);
    if s < |lines| then Some(lines[s]) else None
  }

  /** A SCOPE line stands above the package line, and the leading group holds a canonical one. */
  predicate AlreadyCanonical(lines: Lines) {
    var pkg := Find(lines, PackageLine, 0);
    ScopeAt(lines) < pkg && exists k :: GroupStart(lines, pkg) <= k < pkg && Canonical(lines[k])
  }

  predicate Untouched(lines: Lines, isTest: bool) {
    isTest || Find(lines, PackageLine, 0) == |lines| || AlreadyCanonical(lines)
  }

  /** `comment` put into `rest`. */
  function Inserted(rest: Lines, at: nat, comment: string): (out: Lines)
    requires at <= |rest|
    ensures |out| == |rest| + 1
  {
    rest[..at] + [comment] + rest[at..]
  }

  method FindContinuationLines(lines: Lines, scope: nat) returns (count: nat)
    requires scope < |lines|
    ensures scope + 1 + count == RunEnd(lines, Continuation, scope + 1, |lines|)
  {
    count := 0;
    var j := scope + 1;
    while j < |lines|
      invariant j == scope + 1 + count <= |lines|
      invariant RunEnd(lines, Continuation, j, |lines|) == RunEnd(lines, Continuation, scope + 1, |lines|)
    {
      var line := lines[j];
      if !Comment(line) { break; }
      var body := Visible(line[2..]);
      if body == "" { break; }
      if Scope(line) { break; }
      if 'A' <= body[0] <= 'Z' && body[0] != 'A' && body[0] != 'I' { break; }
      count := count + 1;
      j := j + 1;
    }
  }

  /** Walks up from line `pkg` over comments and blank lines. */
  method LeadingGroup(lines: Lines, pkg: nat) returns (start: nat)
    requires pkg <= |lines|
    ensures start == GroupStart(lines, pkg)
  {
    var i: int := pkg - 1;
    while i >= 0 && Group(lines[i])
      invariant -1 <= i < pkg && GroupStart(lines, i + 1) == GroupStart(lines, pkg)
    {
      i := i - 1;
    }
    start := i + 1;
  }

  method FirstLine(lines: Lines, kind: Kind) returns (at: nat)
    ensures at == Find(lines, kind, 0)
  {
    at := 0;
    while at < |lines| && !Is(kind, lines[at])
      invariant at <= |lines| && Find(lines, kind, at) == Find(lines, kind, 0)
    {
      at := at + 1;
    }
  }

  /** Below the templ banner if there is one, at the top of the leading group if not. */
  method PlaceComment(lines: Lines, pkg: nat, comment: string) returns (out: Lines)
    requires pkg == Find(lines, PackageLine, 0) < |lines|
    ensures out == Inserted(lines, Slot(lines), comment)
  {
    hide BannerPart, Group;
    var start := LeadingGroup(lines, pkg);
    var banner := 0;
    while banner < pkg && !Banner(lines[banner])
      invariant banner <= pkg && Find(lines, BannerLine, banner) == Find(lines, BannerLine, 0)
    {
      banner := banner + 1;
    }
    if banner < pkg {
      var end := banner + 1;
      while end < pkg && BannerPart(lines[end])
        invariant end <= pkg && RunEnd(lines, BannerTail, end, pkg) == RunEnd(lines, BannerTail, banner + 1, pkg)
      {
        end := end + 1;
      }
      return lines[..end] + [comment] + lines[end..];
    }
    return lines[..start] + [comment] + lines[start..];
  }

  /** One file; `describe` chooses the description, given the old SCOPE line if there is one. */
  method MigrateFile(input: Lines, isTest: bool, axes: Axes, describe: Option<string> -> string)
    returns (changed: bool, lines: Lines)
    ensures changed <==> !Untouched(input, isTest)
    ensures changed ==> CutKeepsPackage(input) && lines == Migrated(input, axes, describe)
  {
    hide Is, Canonical, Render, Slot, Find, RunEnd, GroupStart, Inserted;
    lines := input;
    if isTest { return false, lines; }
    var pkg := FirstLine(lines, PackageLine);
    if pkg == |lines| { return false, lines; }
    var scope := FirstLine(lines, Annotation);
    var found := scope < |lines|;
    var comment := Render(axes, describe(if found then Some(lines[scope]) else None));

    if found && scope < pkg {
      var start := LeadingGroup(lines, pkg);
      for j := start to pkg
        invariant forall k :: start <= k < j ==> !Canonical(lines[k])
      {
        if Canonical(lines[j]) { return false, lines; }
      }
      var count := FindContinuationLines(lines, scope);
      PackageAfterCut(input);
      lines := lines[..scope] + lines[scope + 1 + count..];
      assert lines == Cut(input);
      pkg := pkg - (1 + count);
      found := false;
    }
    if found && scope >= pkg {
      var count := FindContinuationLines(lines, scope);
      lines := lines[..scope] + lines[scope + 1 + count..];
      assert lines == Cut(input);
    }
    assert lines == Cut(input);
    PackageAfterCut(input);
    lines := PlaceComment(lines, pkg, comment);
    return true, lines;
  }

  predicate CutKeepsPackage(lines: Lines) {
    Find(Cut(lines), PackageLine, 0) < |Cut(lines)|
  }

  function Migrated(lines: Lines, axes: Axes, describe: Option<string> -> string): Lines
    requires CutKeepsPackage(lines)
  {
    Inserted(Cut(lines), Slot(Cut(lines)), Render(axes, describe(OldScope(lines))))
  }

  // ---- kinds of line ----

  lemma VisibleStays(s: string)
    requires s != "" && !Space(s[0])
    ensures Visible(s) == s && Visible(" " + s) == s
  {
    assert (" " + s)[1..] == s;
  }

  predicate White(c: char) {
    c in {' ', '\t', '\r', '\U{0b}', '\U{0c}', '\U{1c}', '\U{1d}', '\U{1e}', '\U{1f}'}
  }

  /** The visible text begins after the white space, all of it and nothing else. */
  lemma {:induction false} VisibleIs(blanks: string, body: string)
    requires (forall c :: c in blanks ==> White(c)) && (body == "" || !White(body[0]))
    ensures Visible(blanks + body) == body
  {
    if blanks != "" {
      assert (blanks + body)[1..] == blanks[1..] + body && blanks[0] in blanks;
      VisibleIs(blanks[1..], body);
    } else {
      assert blanks + body == body;
    }
  }

  /** A comment goes on with the SCOPE sentence unless it is empty, a SCOPE line
      itself, or begins with a capital other than A and I. */
  lemma ContinuesIff(blanks: string, body: string)
    requires (forall c :: c in blanks ==> White(c)) && (body == "" || !White(body[0]))
    ensures Continues("//" + blanks + body) <==>
              body != "" && !("SCOPE:" <= body) && ('A' <= body[0] <= 'Z' ==> body[0] == 'A' || body[0] == 'I')
  {
    var line := "//" + blanks + body;
    assert line[2..] == blanks + body;
    VisibleIs(blanks, body);
  }

  /** A line is the package line, the templ banner or part of the banner by how it
      begins; a line of white space is part of the banner too. */
  lemma KindsAre(line: string)
    ensures Is(PackageLine, line) <==> "package " <= line
    ensures Is(BannerLine, line) <==> "// Code generated by templ" <= line
    ensures Is(BannerTail, line) <==> "// templ:" <= line || "// Code generated" <= line || forall c :: c in line ==> White(c)
  {
    WhiteIff(line);
  }

  lemma {:induction false} WhiteIff(line: string)
    ensures Visible(line) == "" <==> forall c :: c in line ==> White(c)
  {
    if line != "" {
      assert forall c :: c in line <==> c == line[0] || c in line[1..];
      assert Space(line[0]) <==> White(line[0]);
      WhiteIff(line[1..]);
    }
  }

  /** A comment is canonical if and only if its text is both axes, spelled out, up to the end or a character that cannot go on with the word. */
  lemma CanonicalIff(blanks: string, body: string)
    requires (forall c :: c in blanks ==> White(c)) && (body == "" || !White(body[0]))
    ensures Canonical("//" + blanks + body) <==>
              exists layer: Layer, removal: Removal :: SpellsOut(body, layer, removal)
  {
    assert ("//" + blanks + body)[2..] == blanks + body;
    VisibleIs(blanks, body);
    forall layer: Layer, removal: Removal ensures SpellsOut(body, layer, removal) <==> HasAxes(body, Axes(layer, removal)) {
      SpelledHead(layer, removal);
    }
    hide HasAxes, SpellsOut;
  }

  predicate SpellsOut(body: string, layer: Layer, removal: Removal) {
    var head := "SCOPE:layer=" + (if layer == Infra then "infra" else "feature")
                + ",removal=" + (if removal == Core then "core" else if removal == Plugin then "plugin" else "feature");
    head <= body
    && (|body| > |head| ==>
          var c := body[|head|];
          !('a' <= c <= 'z') && !('A' <= c <= 'Z') && !('0' <= c <= '9') && c != '_')
  }

  lemma SpelledHead(layer: Layer, removal: Removal)
    ensures Head(Axes(layer, removal))
            == "SCOPE:layer=" + (if layer == Infra then "infra" else "feature")
               + ",removal=" + (if removal == Core then "core" else if removal == Plugin then "plugin" else "feature")
  {}

  lemma HeadStarts(axes: Axes, body: string)
    requires Starts(Head(axes), body)
    ensures Starts("SCOPE:", body)
  {
    var word := "SCOPE:";
    assert forall k :: 0 <= k < |word| ==> Head(axes)[k] == word[k];
  }

  lemma CanonicalIsScope(line: string)
    requires Canonical(line)
    ensures Scope(line)
  {
    var layer: Layer, removal: Removal :| HasAxes(Visible(line[2..]), Axes(layer, removal));
    HeadStarts(Axes(layer, removal), Visible(line[2..]));
  }

  /** The rendered line has the canonical form, whatever the description. */
  /** The rendered line, letter for letter: the two axes, and the description after a dash if there is one. */
  lemma RenderSays(axes: Axes, description: string)
    ensures var layer := if axes.layer == Infra then "infra" else "feature";
            var removal := if axes.removal == Core then "core" else if axes.removal == Plugin then "plugin" else "feature";
            var head := "// SCOPE:layer=" + layer + ",removal=" + removal;
            Render(axes, description) == if description == "" then head else head + " \U{2014} " + description
  {
    var layer := if axes.layer == Infra then "infra" else "feature";
    var removal := if axes.removal == Core then "core" else if axes.removal == Plugin then "plugin" else "feature";
    assert Head(axes) == "SCOPE:layer=" + layer + ",removal=" + removal;
    assert "// " + "SCOPE:layer=" == "// SCOPE:layer=";
    hide Head;
    assert "// " + ("SCOPE:layer=" + layer + ",removal=" + removal) == "// SCOPE:layer=" + layer + ",removal=" + removal;
  }

  lemma RenderIsCanonical(axes: Axes, description: string)
    ensures Canonical(Render(axes, description))
  {
    var head := Head(axes);
    var tail := if description == "" then "" else " \U{2014} " + description;
    var line := Render(axes, description);
    var slashes := "// ";
    HeadStarts(axes, head);
    assert head[0] == "SCOPE:"[0] == 'S';
    hide Head, Visible;
    VisibleStays(head + tail);
    assert tail != "" ==> tail[0] == ' ';
    assert line == slashes + (head + tail);
    assert line[2..] == " " + (head + tail) && line[0] == line[1] == '/';
    assert HasAxes(Visible(line[2..]), Axes(axes.layer, axes.removal));
  }

  lemma CanonicalIsAnnotation(line: string)
    requires Canonical(line)
    ensures Is(Annotation, line) && Group(line)
  {
    CanonicalIsScope(line);
  }

  /** A line of a SCOPE block is a comment, so never the package line; and never a templ banner. */
  lemma BlockLine(line: string)
    requires Is(Annotation, line) || Is(Continuation, line)
    ensures Group(line) && !Is(PackageLine, line) && !Is(BannerLine, line)
  {
    assert Comment(line);
    var word, banner := "package ", "// Code generated by templ";
    assert line[0] == '/' != word[0];
    if Banner(line) {
      assert line[2..] == " " + line[3..] && line[3] == banner[3] == 'C';
      VisibleStays(line[3..]);
    }
  }

  lemma BannersAreGroup(line: string)
    ensures Is(BannerLine, line) || Is(BannerTail, line) ==> Group(line)
  {
    var a, b := "// templ:", "// Code generated";
    if Starts(a, line) { assert line[0] == a[0] && line[1] == a[1]; }
    if Starts(b, line) { assert line[0] == b[0] && line[1] == b[1]; }
  }

  // ---- positions ----

  lemma {:induction false} FindFrom(lines: Lines, kind: Kind, from: nat, at: nat)
    requires from <= at <= |lines| && (forall k :: from <= k < at ==> !Is(kind, lines[k])) && (at < |lines| ==> Is(kind, lines[at]))
    ensures Find(lines, kind, from) == at
    decreases at - from
  {
    hide Is;
    if from < at { FindFrom(lines, kind, from + 1, at); }
  }

  function Shift(k: nat, s: nat, e: nat): nat
    requires s <= e
  {
    if k < s then k else k + (e - s)
  }

  lemma RemovedAt(lines: Lines, s: nat, e: nat, k: nat)
    requires s <= e <= |lines| && k < |lines| - (e - s)
    ensures Removed(lines, s, e)[k] == lines[Shift(k, s, e)]
  {}

  lemma InsertedAt(rest: Lines, at: nat, line: string, k: nat)
    requires at <= |rest| && k <= |rest|
    ensures Inserted(rest, at, line)[k] == if k < at then rest[k] else if k == at then line else rest[k - 1]
  {}

  /** Taking out lines that are not of a kind moves the first line of that kind along. */
  lemma FindWithout(lines: Lines, kind: Kind, s: nat, e: nat)
    requires s <= e <= |lines| && forall k :: s <= k < e ==> !Is(kind, lines[k])
    ensures var at := Find(lines, kind, 0);
            (at < s || e <= at) && Find(Removed(lines, s, e), kind, 0) == if at < s then at else at - (e - s)
  {
    hide Is, Find, Removed;
    var at, rest := Find(lines, kind, 0), Removed(lines, s, e);
    assert at < |lines| ==> Is(kind, lines[at]);
    var at' := if at < s then at else at - (e - s);
    forall k | 0 <= k < at' ensures !Is(kind, rest[k]) {
      RemovedAt(lines, s, e, k);
      NoneBefore(lines, kind, 0, Shift(k, s, e));
    }
    if at' < |rest| { RemovedAt(lines, s, e, at'); }
    FindFrom(rest, kind, 0, at');
  }

  /** Inserting a line of another kind at or above the first of a kind moves that one down. */
  lemma FindInserted(rest: Lines, kind: Kind, at: nat, line: string)
    requires at <= Find(rest, kind, 0) && !Is(kind, line)
    ensures Find(Inserted(rest, at, line), kind, 0) == Find(rest, kind, 0) + 1
  {
    hide Is, Find, Inserted;
    var p, out := Find(rest, kind, 0), Inserted(rest, at, line);
    forall k | 0 <= k < p + 1 ensures !Is(kind, out[k]) {
      InsertedAt(rest, at, line, k);
      if k < at { NoneBefore(rest, kind, 0, k); }
      else if k > at { NoneBefore(rest, kind, 0, k - 1); }
    }
    if p < |rest| { InsertedAt(rest, at, line, p + 1); }
    FindFrom(out, kind, 0, p + 1);
  }

  lemma InBlock(lines: Lines, k: nat)
    requires ScopeAt(lines) <= k < BlockEnd(lines)
    ensures Is(Annotation, lines[k]) || Is(Continuation, lines[k])
    ensures Group(lines[k]) && !Is(PackageLine, lines[k]) && !Is(BannerLine, lines[k])
  {
    var s := ScopeAt(lines);
    if k > s {
      AllInRun(lines, Continuation, s + 1, |lines|, k);
    }
    hide Find, RunEnd, Is;
    BlockLine(lines[k]);
  }

  /** The cut takes comment lines only, so the package line and the banner stay and move with the rest. */
  lemma CutKeeps(lines: Lines, kind: Kind)
    requires kind == PackageLine || kind == BannerLine
    ensures var s, e, at := ScopeAt(lines), BlockEnd(lines), Find(lines, kind, 0);
            (at < s || e <= at) && Find(Cut(lines), kind, 0) == if at < s then at else at - (e - s)
  {
    hide ScopeAt, BlockEnd, Is, Group, Find, Removed;
    forall k | ScopeAt(lines) <= k < BlockEnd(lines) ensures !Is(kind, lines[k]) {
      InBlock(lines, k);
    }
    FindWithout(lines, kind, ScopeAt(lines), BlockEnd(lines));
  }

  lemma PackageAfterCut(lines: Lines)
    requires Find(lines, PackageLine, 0) < |lines|
    ensures CutKeepsPackage(lines)
    ensures var s, e, pkg := ScopeAt(lines), BlockEnd(lines), Find(lines, PackageLine, 0);
            Find(Cut(lines), PackageLine, 0) == if s < pkg then pkg - (e - s) else pkg
    ensures ScopeAt(lines) < Find(lines, PackageLine, 0) ==> BlockEnd(lines) <= Find(lines, PackageLine, 0)
  {
    hide ScopeAt, BlockEnd, Find, Is, Removed;
    CutKeeps(lines, PackageLine);
  }

  lemma PackageLineStays(lines: Lines)
    requires Find(lines, PackageLine, 0) < |lines|
    ensures CutKeepsPackage(lines)
    ensures Cut(lines)[Find(Cut(lines), PackageLine, 0)] == lines[Find(lines, PackageLine, 0)]
  {
    hide ScopeAt, BlockEnd, Find, Is, Removed;
    CutKeeps(lines, PackageLine);
    var s, e, pkg := ScopeAt(lines), BlockEnd(lines), Find(lines, PackageLine, 0);
    RemovedAt(lines, s, e, if pkg < s then pkg else pkg - (e - s));
  }

  // ---- what one run does ----

  lemma SlotAbovePackage(rest: Lines)
    requires Find(rest, PackageLine, 0) < |rest|
    ensures Slot(rest) <= Find(rest, PackageLine, 0)
  {}

  /** A run that changes a file takes out at most one block, its first SCOPE line
      with all its continuations, and puts one canonical line above the package
      line; the other lines keep their order. */
  lemma RunMovesOneBlock(lines: Lines, axes: Axes, describe: Option<string> -> string)
    returns (s: nat, e: nat, at: nat, comment: string)
    requires !Untouched(lines, false)
    ensures s <= e <= |lines| && at <= |lines| - (e - s) && CutKeepsPackage(lines)
    ensures Migrated(lines, axes, describe) == Inserted(lines[..s] + lines[e..], at, comment)
    ensures s < e ==> Scope(lines[s]) && forall k :: s < k < e ==> Continues(lines[k])
    ensures s < e < |lines| ==> !Continues(lines[e])
    ensures forall k :: 0 <= k < (if s < e then s else |lines|) ==> !Scope(lines[k])
    ensures Canonical(comment)
    ensures var out := Migrated(lines, axes, describe); var pkg := Find(out, PackageLine, 0);
            at < pkg < |out| && out[pkg] == lines[Find(lines, PackageLine, 0)]
  {
    s, e := ScopeAt(lines), BlockEnd(lines);
    BlockIs(lines);
    PackageLineStays(lines);
    var rest := Cut(lines);
    at, comment := Slot(rest), Render(axes, describe(OldScope(lines)));
    RenderIsCanonical(axes, describe(OldScope(lines)));
    hide ScopeAt, BlockEnd, Find, Slot, Is, Scope, Continues, Canonical, Inserted;
    SlotAbovePackage(rest);
    CanonicalIsAnnotation(comment);
    BlockLine(comment);
    FindInserted(rest, PackageLine, at, comment);
    InsertedAt(rest, at, comment, Find(rest, PackageLine, 0) + 1);
  }

  lemma BlockIs(lines: Lines)
    ensures var s, e := ScopeAt(lines), BlockEnd(lines);
            && (s < e ==> Scope(lines[s]) && forall k :: s < k < e ==> Continues(lines[k]))
            && (s < e < |lines| ==> !Continues(lines[e]))
            && (forall k :: 0 <= k < (if s < e then s else |lines|) ==> !Scope(lines[k]))
  {
    hide Scope, Continues;
    var s, e := ScopeAt(lines), BlockEnd(lines);
    forall k | s < k < e ensures Continues(lines[k]) {
      AllInRun(lines, Continuation, s + 1, |lines|, k);
    }
    forall k | 0 <= k < s ensures !Scope(lines[k]) {
      NoneBefore(lines, Annotation, 0, k);
    }
  }

  // ---- running twice ----

  predicate AllGroup(lines: Lines, from: nat, to: nat)
    requires to <= |lines|
  {
    forall k :: from <= k < to ==> Group(lines[k])
  }

  lemma GroupStartIff(lines: Lines, pkg: nat, from: nat)
    requires from <= pkg <= |lines|
    ensures GroupStart(lines, pkg) <= from <==> AllGroup(lines, from, pkg)
  {
    hide Group;
    var g := GroupStart(lines, pkg);
    if from < g {
      assert !Group(lines[g - 1]);
    } else {
      forall k | from <= k < pkg ensures Group(lines[k]) {
        AllInGroup(lines, pkg, k);
      }
    }
  }

  /** The templ banner, if one stands above the package line, is in the leading comment group. */
  predicate BannerInGroup(lines: Lines) {
    var pkg, banner := Find(lines, PackageLine, 0), Find(lines, BannerLine, 0);
    banner < pkg ==> GroupStart(lines, pkg) <= banner
  }

  /** Cutting comments out of lines leaves it to the others whether all are of the group. */
  lemma RemovedKeepsGroup(lines: Lines, s: nat, e: nat, k: nat, to: nat)
    requires s <= e <= |lines| && AllGroup(lines, s, e)
    requires k <= to <= |lines| - (e - s)
    ensures AllGroup(Removed(lines, s, e), k, to)
            <==> AllGroup(lines, if k < s then k else k + (e - s), if to <= s then to else to + (e - s))
  {
    hide Group, Removed;
    var rest := Removed(lines, s, e);
    var from', to' := if k < s then k else k + (e - s), if to <= s then to else to + (e - s);
    if AllGroup(rest, k, to) {
      forall j | from' <= j < to' ensures Group(lines[j]) {
        if j < s { RemovedAt(lines, s, e, j); }
        else if e <= j { RemovedAt(lines, s, e, j - (e - s)); }
      }
    }
    if AllGroup(lines, from', to') {
      forall j | k <= j < to ensures Group(rest[j]) {
        RemovedAt(lines, s, e, j);
      }
    }
  }

  lemma CutKeepsGroup(lines: Lines, k: nat)
    requires Find(lines, PackageLine, 0) < |lines| && k < Find(Cut(lines), PackageLine, 0)
    ensures var s, e, pkg, rest := ScopeAt(lines), BlockEnd(lines), Find(lines, PackageLine, 0), Cut(lines);
            && Shift(k, s, e) < pkg && rest[k] == lines[Shift(k, s, e)]
            && (GroupStart(rest, Find(rest, PackageLine, 0)) <= k <==> GroupStart(lines, pkg) <= Shift(k, s, e))
  {
    PackageAfterCut(lines);
    hide ScopeAt, BlockEnd, Find, Is, Group, Removed, GroupStart;
    var s, e, pkg, rest := ScopeAt(lines), BlockEnd(lines), Find(lines, PackageLine, 0), Cut(lines);
    var pkg' := Find(rest, PackageLine, 0);
    RemovedAt(lines, s, e, k);
    forall j | s <= j < e ensures Group(lines[j]) {
      InBlock(lines, j);
    }
    GroupStartIff(rest, pkg', k);
    GroupStartIff(lines, pkg, Shift(k, s, e));
    RemovedKeepsGroup(lines, s, e, k, pkg');
  }

  lemma CutKeepsBannerInGroup(lines: Lines)
    requires Find(lines, PackageLine, 0) < |lines|
    ensures BannerInGroup(Cut(lines)) <==> BannerInGroup(lines)
  {
    PackageAfterCut(lines);
    CutKeeps(lines, BannerLine);
    hide ScopeAt, BlockEnd, Find, Is, GroupStart, Removed;
    var banner' := Find(Cut(lines), BannerLine, 0);
    if banner' < Find(Cut(lines), PackageLine, 0) {
      CutKeepsGroup(lines, banner');
    }
  }

  /** A file that was not left alone has no canonical line in its leading group, even after the cut. */
  lemma NothingCanonicalLeft(lines: Lines, k: nat)
    requires !Untouched(lines, false)
    requires GroupStart(Cut(lines), Find(Cut(lines), PackageLine, 0)) <= k < Find(Cut(lines), PackageLine, 0)
    ensures !Canonical(Cut(lines)[k])
  {
    CutKeepsGroup(lines, k);
    var line := Cut(lines)[k];
    if Canonical(line) && ScopeAt(lines) >= Find(lines, PackageLine, 0) {
      CanonicalIsAnnotation(line);
      NoneBefore(lines, Annotation, 0, k);
    }
    hide Canonical, Is, Find, GroupStart, Cut;
  }

  /** The slot lies in the leading group unless a banner outside it decides. */
  lemma SlotInGroupIff(rest: Lines)
    requires Find(rest, PackageLine, 0) < |rest|
    ensures GroupStart(rest, Find(rest, PackageLine, 0)) <= Slot(rest) <==> BannerInGroup(rest)
  {
    hide Is, Find, GroupStart, Group, RunEnd;
    var pkg, banner := Find(rest, PackageLine, 0), Find(rest, BannerLine, 0);
    var g := GroupStart(rest, pkg);
    if banner < g {
      BannersAreGroup(rest[banner]);
      BannersAreGroup(rest[g - 1]);
      assert banner < g - 1;
      if Slot(rest) > g - 1 {
        AllInRun(rest, BannerTail, banner + 1, pkg, g - 1);
      }
    }
  }

  /** The script calls itself idempotent. A second run on a file the first one
      changed reports no change exactly when the templ banner, if any, lies in the
      comment group above the package line. */
  lemma SecondRunIsQuietIff(lines: Lines, axes: Axes, describe: Option<string> -> string)
    requires !Untouched(lines, false)
    ensures CutKeepsPackage(lines)
    ensures Untouched(Migrated(lines, axes, describe), false) <==> BannerInGroup(lines)
  {
    PackageAfterCut(lines);
    CutKeepsBannerInGroup(lines);
    var rest, comment := Cut(lines), Render(axes, describe(OldScope(lines)));
    RenderIsCanonical(axes, describe(OldScope(lines)));
    CanonicalIsAnnotation(comment);
    BlockLine(comment);
    SlotInGroupIff(rest);
    SlotAbovePackage(rest);
    forall k | GroupStart(rest, Find(rest, PackageLine, 0)) <= k < Find(rest, PackageLine, 0) ensures !Canonical(rest[k]) {
      NothingCanonicalLeft(lines, k);
    }
    InsertedIsQuietIff(rest, Slot(rest), comment);
    hide Is, Group, Canonical, Render, Cut, Slot, BannerInGroup, Find, GroupStart, Untouched;
  }

  lemma InsertedIsQuietIff(rest: Lines, at: nat, comment: string)
    requires at <= Find(rest, PackageLine, 0) < |rest|
    requires Canonical(comment) && Is(Annotation, comment) && Group(comment) && !Is(PackageLine, comment)
    requires forall k :: GroupStart(rest, Find(rest, PackageLine, 0)) <= k < Find(rest, PackageLine, 0) ==> !Canonical(rest[k])
    ensures Untouched(Inserted(rest, at, comment), false) <==> GroupStart(rest, Find(rest, PackageLine, 0)) <= at
  {
    hide Is, Group, Canonical, Find, GroupStart, Inserted;
    var pkg, out := Find(rest, PackageLine, 0), Inserted(rest, at, comment);
    var g := GroupStart(rest, pkg);
    FindInserted(rest, PackageLine, at, comment);
    InsertedAt(rest, at, comment, at);
    if at < ScopeAt(out) { NoneBefore(out, Annotation, 0, at); }
    if g <= at {
      forall k | at <= k < pkg + 1 ensures Group(out[k]) {
        InsertedAt(rest, at, comment, k);
        if k > at { AllInGroup(rest, pkg, k - 1); }
      }
      GroupStartIff(out, pkg + 1, at);
    } else {
      InsertedAt(rest, at, comment, g);
      GroupStartIff(out, pkg + 1, g);
      forall k | GroupStart(out, pkg + 1) <= k < pkg + 1 ensures !Canonical(out[k]) {
        InsertedAt(rest, at, comment, k);
      }
    }
  }

  /** A templ banner, a doc comment beginning in lower case, a line outside any comment group, a package line. */
  predicate Shape(banner: string, doc: string, code: string, pkg: string) {
    && Is(BannerLine, banner) && !Is(Annotation, banner) && !Is(PackageLine, banner)
    && Is(Continuation, doc) && !Is(Annotation, doc) && !Is(BannerTail, doc) && !Is(BannerLine, doc) && !Is(PackageLine, doc)
    && !Group(code) && !Is(Annotation, code) && !Is(Continuation, code) && !Is(BannerTail, code) && !Is(PackageLine, code)
    && Is(PackageLine, pkg) && !Is(Annotation, pkg)
  }

  lemma FirstRunOn(banner: string, doc: string, code: string, pkg: string, axes: Axes, describe: Option<string> -> string)
    requires Shape(banner, doc, code, pkg)
    ensures var lines := [banner, doc, code, pkg];
            && !Untouched(lines, false) && CutKeepsPackage(lines)
            && Migrated(lines, axes, describe) == [banner, Render(axes, describe(None)), doc, code, pkg]
  {
    hide Is, Render, Canonical, Group, Find;
    var lines := [banner, doc, code, pkg];
    FindFrom(lines, Annotation, 0, 4);
    FindFrom(lines, PackageLine, 0, 3);
    FindFrom(lines, BannerLine, 0, 0);
    assert Cut(lines) == lines;
  }

  lemma SecondRunOn(banner: string, doc: string, code: string, pkg: string, comment: string,
                    axes: Axes, describe: Option<string> -> string)
    requires Shape(banner, doc, code, pkg) && Canonical(comment)
    ensures var once := [banner, comment, doc, code, pkg];
            && !Untouched(once, false) && CutKeepsPackage(once)
            && Migrated(once, axes, describe) == [banner, Render(axes, describe(Some(comment))), code, pkg]
  {
    CanonicalIsAnnotation(comment);
    BlockLine(comment);
    hide Is, Render, Canonical, Group, Find;
    var once := [banner, comment, doc, code, pkg];
    FindFrom(once, Annotation, 0, 1);
    FindFrom(once, PackageLine, 0, 4);
    assert RunEnd(once, Continuation, 3, 5) == 3;
    assert BlockEnd(once) == 3;
    var rest := [banner, code, pkg];
    assert Cut(once) == rest;
    FindFrom(rest, PackageLine, 0, 2);
    FindFrom(rest, BannerLine, 0, 0);
    assert RunEnd(rest, BannerTail, 1, 2) == 1;
  }

  lemma DocLine(doc: string)
    requires doc == "// list"
    ensures Is(Continuation, doc) && !Is(Annotation, doc) && !Is(BannerTail, doc)
    ensures !Is(BannerLine, doc) && !Is(PackageLine, doc)
  {
    var body := doc[3..];
    assert doc[0] == '/' && doc[1] == '/' && doc[2] == ' ' && doc[3] == 'l';
    assert doc[2..] == " " + body && body[0] == 'l';
    VisibleStays(body);
    VisibleStays(doc);
    NotStarts("SCOPE:", body, 0);
    NotStarts("// templ:", doc, 3);
    NotStarts("// Code generated", doc, 3);
    assert Comment(doc);
    BlockLine(doc);
  }

  lemma NotStarts(prefix: string, line: string, k: nat)
    requires k < |prefix| && k < |line| && prefix[k] != line[k]
    ensures !Starts(prefix, line)
  {}

  lemma BannerFact(banner: string)
    requires banner == "// Code generated by templ"
    ensures Is(BannerLine, banner) && !Is(Annotation, banner) && !Is(PackageLine, banner)
  {
    var word := "package ";
    assert banner[0] == '/' != word[0];
    if Is(Annotation, banner) { BlockLine(banner); }
  }

  lemma CodeFact(code: string)
    requires code == "/**/"
    ensures !Group(code) && !Is(Annotation, code) && !Is(Continuation, code) && !Is(BannerTail, code) && !Is(PackageLine, code)
  {
    assert code[0] == '/' && code[1] == '*';
    VisibleStays(code);
    NotStarts("//", code, 1);
    NotStarts("// templ:", code, 1);
    NotStarts("// Code generated", code, 1);
    NotStarts("package ", code, 0);
  }

  lemma PackageFact(pkg: string)
    requires pkg == "package p"
    ensures Is(PackageLine, pkg) && !Is(Annotation, pkg)
  {
    var word := "package ";
    assert pkg == word + "p";
    NotStarts("//", pkg, 0);
  }

  /** With a banner outside that group a second run does more than report a change:
      here it takes the file's own comment for a continuation of the line the first
      run inserted, and deletes it. */
  lemma SecondRunCanDeleteAComment(axes: Axes, describe: Option<string> -> string)
    returns (lines: Lines, once: Lines, twice: Lines, doc: string)
    ensures !Untouched(lines, false) && CutKeepsPackage(lines) && once == Migrated(lines, axes, describe)
    ensures !Untouched(once, false) && CutKeepsPackage(once) && twice == Migrated(once, axes, describe)
    ensures doc in lines && doc in once && doc !in twice && !Is(Annotation, doc)
  {
    doc := "// list";
    var banner, code, pkg := "// Code generated by templ", "/**/", "package p";
    DocLine(doc);
    BannerFact(banner);
    CodeFact(code);
    PackageFact(pkg);
    assert Shape(banner, doc, code, pkg);
    hide *;
    lines, once, twice := TwoRunsOn(banner, doc, code, pkg, axes, describe);
  }

  lemma TwoRunsOn(banner: string, doc: string, code: string, pkg: string, axes: Axes, describe: Option<string> -> string)
    returns (lines: Lines, once: Lines, twice: Lines)
    requires Shape(banner, doc, code, pkg)
    ensures !Untouched(lines, false) && CutKeepsPackage(lines) && once == Migrated(lines, axes, describe)
    ensures !Untouched(once, false) && CutKeepsPackage(once) && twice == Migrated(once, axes, describe)
    ensures doc in lines && doc in once && doc !in twice && !Is(Annotation, doc)
  {
    hide Is, Group, Find, Canonical, Untouched, CutKeepsPackage, Migrated, Render;
    var comment := Render(axes, describe(None));
    RenderIsCanonical(axes, describe(None));
    FirstRunOn(banner, doc, code, pkg, axes, describe);
    SecondRunOn(banner, doc, code, pkg, comment, axes, describe);
    lines := [banner, doc, code, pkg];
    once := [banner, comment, doc, code, pkg];
    var again := Render(axes, describe(Some(comment)));
    RenderIsCanonical(axes, describe(Some(comment)));
    CanonicalIsAnnotation(again);
    twice := [banner, again, code, pkg];
    assert lines[1] == once[2] == doc;
  }

  /** A SCOPE line with its continuation, a comment of the file's own, the package
      line: the block goes, the new line comes on top, the rest stays. */
  lemma OneFileMigrated(axes: Axes, description: string)
    ensures var lines := ["// SCOPE:core - keeps", "// the lights on", "// Package p is it.", "package p"];
            && !Untouched(lines, false) && Untouched(lines, true) && CutKeepsPackage(lines)
            && Migrated(lines, axes, _ => description) == [Render(axes, description), "// Package p is it.", "package p"]
  {
    var scope, more, doc, pkg := "// SCOPE:core - keeps", "// the lights on", "// Package p is it.", "package p";
    PlainScope(scope);
    LowerContinues(more);
    UpperStands(doc);
    PackageFact(pkg);
    BlockLine(scope);
    BlockLine(more);
    hide Is, Render, Canonical, Group, Find;
    OnBlock(scope, more, doc, pkg, axes, description);
  }

  lemma OnBlock(scope: string, more: string, doc: string, pkg: string, axes: Axes, description: string)
    requires Is(Annotation, scope) && !Canonical(scope) && !Is(PackageLine, scope) && !Is(BannerLine, scope) && Group(scope)
    requires Is(Continuation, more) && !Canonical(more) && !Is(PackageLine, more) && !Is(BannerLine, more) && Group(more)
    requires !Is(Continuation, doc) && !Is(Annotation, doc) && !Canonical(doc) && !Is(PackageLine, doc) && !Is(BannerLine, doc) && Group(doc)
    requires Is(PackageLine, pkg) && !Is(Annotation, pkg)
    ensures var lines := [scope, more, doc, pkg];
            && !Untouched(lines, false) && CutKeepsPackage(lines)
            && Migrated(lines, axes, _ => description) == [Render(axes, description), doc, pkg]
  {
    hide Is, Render, Canonical, Group, Find;
    var lines, rest := [scope, more, doc, pkg], [doc, pkg];
    FindFrom(lines, Annotation, 0, 0);
    FindFrom(lines, PackageLine, 0, 3);
    assert RunEnd(lines, Continuation, 2, 4) == 2;
    assert BlockEnd(lines) == 2;
    assert Cut(lines) == rest;
    FindFrom(rest, PackageLine, 0, 1);
    NotBefore(rest);
    assert GroupStart(rest, 1) == 0 by { assert GroupStart(rest, 0) == 0; }
  }

  lemma NotBefore(rest: Lines)
    requires |rest| == 2 && !Is(BannerLine, rest[0])
    ensures Find(rest, BannerLine, 0) >= 1
  {
    hide Is;
  }

  lemma PlainScope(line: string)
    requires line == "// SCOPE:core - keeps"
    ensures Is(Annotation, line) && !Canonical(line)
  {
    var body := line[3..];
    assert line[0] == '/' && line[1] == '/' && line[2] == ' ' && line[3] == 'S';
    assert line[2..] == " " + body;
    VisibleStays(body);
    assert body == "SCOPE:" + body[6..];
    var head := "SCOPE:layer=";
    forall layer: Layer, removal: Removal ensures !HasAxes(body, Axes(layer, removal)) {
      assert Head(Axes(layer, removal))[6] == head[6] == 'l' && body[6] == 'c';
    }
  }

  lemma LowerContinues(line: string)
    requires line == "// the lights on"
    ensures Is(Continuation, line) && !Canonical(line)
  {
    var body := line[3..];
    assert line[0] == '/' && line[1] == '/' && line[2] == ' ' && line[3] == 't';
    assert line[2..] == " " + body && body[0] == 't';
    VisibleStays(body);
    NotStarts("SCOPE:", body, 0);
    assert !Scope(line);
    if Canonical(line) { CanonicalIsScope(line); }
  }

  lemma UpperStands(line: string)
    requires line == "// Package p is it."
    ensures !Is(Continuation, line) && !Is(Annotation, line) && !Canonical(line)
    ensures !Is(PackageLine, line) && !Is(BannerLine, line) && Group(line)
  {
    var body := line[3..];
    assert line[0] == '/' && line[1] == '/' && line[2] == ' ' && line[3] == 'P';
    assert line[2..] == " " + body && body[0] == 'P';
    VisibleStays(body);
    NotStarts("SCOPE:", body, 0);
    NotStarts("package ", line, 0);
    NotStarts("// Code generated by templ", line, 3);
    assert !Scope(line);
    if Canonical(line) { CanonicalIsScope(line); }
  }

  /** A generated file: the new line goes below the templ banner, its version line and the blank line after them. */
  lemma TemplFileMigrated(axes: Axes, description: string)
    ensures var lines := ["// Code generated by templ - DO NOT EDIT.", "// templ: version: v0.3", "", "//lint:file", "package p"];
            && !Untouched(lines, false) && CutKeepsPackage(lines)
            && Migrated(lines, axes, _ => description)
               == [lines[0], lines[1], lines[2], Render(axes, description), lines[3], lines[4]]
  {
    var banner, version, lint, pkg := "// Code generated by templ - DO NOT EDIT.", "// templ: version: v0.3", "//lint:file", "package p";
    BannerKind(banner);
    VersionKind(version);
    BlankKind();
    LintKind(lint);
    PackageFact(pkg);
    hide Is, Render, Canonical, Group, Find;
    OnBanner(banner, version, "", lint, pkg, axes, description);
  }

  lemma OnBanner(banner: string, version: string, blank: string, lint: string, pkg: string, axes: Axes, description: string)
    requires Is(BannerLine, banner) && !Is(Annotation, banner) && !Is(PackageLine, banner)
    requires Is(BannerTail, version) && !Is(Annotation, version) && !Is(PackageLine, version)
    requires Is(BannerTail, blank) && !Is(Annotation, blank) && !Is(PackageLine, blank)
    requires !Is(BannerTail, lint) && !Is(Annotation, lint) && !Is(PackageLine, lint)
    requires Is(PackageLine, pkg) && !Is(Annotation, pkg)
    ensures var lines := [banner, version, blank, lint, pkg];
            && !Untouched(lines, false) && CutKeepsPackage(lines)
            && Migrated(lines, axes, _ => description) == [banner, version, blank, Render(axes, description), lint, pkg]
  {
    hide Is, Render, Canonical, Group, Find;
    var lines := [banner, version, blank, lint, pkg];
    FindFrom(lines, Annotation, 0, 5);
    FindFrom(lines, PackageLine, 0, 4);
    FindFrom(lines, BannerLine, 0, 0);
    assert Cut(lines) == lines;
    assert RunEnd(lines, BannerTail, 3, 4) == 3;
    assert RunEnd(lines, BannerTail, 2, 4) == 3;
    assert RunEnd(lines, BannerTail, 1, 4) == 3;
  }

  lemma BannerKind(line: string)
    requires line == "// Code generated by templ - DO NOT EDIT."
    ensures Is(BannerLine, line) && !Is(Annotation, line) && !Is(PackageLine, line)
  {
    var banner := "// Code generated by templ";
    assert line[0] == '/' && line[..|banner|] == banner;
    NotStarts("package ", line, 0);
    if Is(Annotation, line) { BlockLine(line); }
  }

  lemma VersionKind(line: string)
    requires line == "// templ: version: v0.3"
    ensures Is(BannerTail, line) && !Is(Annotation, line) && !Is(PackageLine, line)
  {
    var body, mark := line[3..], "// templ:";
    assert line[0] == '/' && line[2] == ' ' && line[3] == 't' && line[..|mark|] == mark;
    assert line[2..] == " " + body && body[0] == 't';
    VisibleStays(body);
    NotStarts("SCOPE:", body, 0);
    NotStarts("package ", line, 0);
  }

  lemma BlankKind()
    ensures Is(BannerTail, "") && !Is(Annotation, "") && !Is(PackageLine, "")
  {
    assert Visible("") == "";
    assert |"//"| == 2 && |"package "| == 8;
  }

  lemma LintKind(line: string)
    requires line == "//lint:file"
    ensures !Is(BannerTail, line) && !Is(Annotation, line) && !Is(PackageLine, line)
  {
    var body := line[2..];
    assert line[0] == '/' && line[2] == 'l' && body[0] == 'l';
    VisibleStays(line);
    VisibleStays(body);
    NotStarts("SCOPE:", body, 0);
    NotStarts("package ", line, 0);
    NotStarts("// templ:", line, 2);
    NotStarts("// Code generated", line, 2);
  }
}
