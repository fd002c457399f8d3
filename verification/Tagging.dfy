// Writing ids into test files: a comment line goes above each function's
// decorators. Files are sequences of lines; patterns read ASCII.
module Tagging {
  import opened Base58

  type Lines = seq<string>

  // Comment blocks by the index of the line they go above.
  type Blocks = map<nat, Lines>

  // ---- Inserting and deleting ----

  // The first `n` lines with every block above its line, all at once.
  function Inserted(lines: Lines, blocks: Blocks, n: nat): Lines
    requires n <= |lines|
  {
    if n == 0 then [] else Inserted(lines, blocks, n - 1) + BlockAt(blocks, n - 1) + [lines[n - 1]]
  }

  function BlockAt(blocks: Blocks, i: nat): Lines {
    if i in blocks then blocks[i] else []
  }

  function InsertAll(lines: Lines, blocks: Blocks): Lines {
    Inserted(lines, blocks, |lines|)
  }

  // Where line `i` ends up.
  function At(lines: Lines, blocks: Blocks, i: nat): nat
    requires i < |lines|
  {
    |Inserted(lines, blocks, i)| + |BlockAt(blocks, i)|
  }

  lemma {:induction false} InsertedPrefix(lines: Lines, blocks: Blocks, blocks': Blocks, n: nat)
    requires n <= |lines|
    requires forall i: nat | i < n :: BlockAt(blocks, i) == BlockAt(blocks', i)
    ensures Inserted(lines, blocks, n) == Inserted(lines, blocks', n)
  {
    if n == 0 {
    } else {
      InsertedPrefix(lines, blocks, blocks', n - 1);
    }
  }

  lemma {:induction false} InsertedNone(lines: Lines, blocks: Blocks, n: nat)
    requires n <= |lines|
    requires forall i: nat | i < n :: BlockAt(blocks, i) == []
    ensures Inserted(lines, blocks, n) == lines[..n]
  {
    if n == 0 {
    } else {
      InsertedNone(lines, blocks, n - 1);
    }
  }

  function Splice(out: Lines, idx: nat, block: Lines): Lines
    requires idx <= |out|
  {
    out[..idx] + block + out[idx..]
  }

  lemma SpliceOn(out: Lines, idx: nat, block: Lines, more: Lines)
    requires idx <= |out|
    ensures Splice(out + more, idx, block) == Splice(out, idx, block) + more
  {
    assert (out + more)[..idx] == out[..idx] && (out + more)[idx..] == out[idx..] + more;
  }

  lemma {:induction false} InsertedLength(lines: Lines, blocks: Blocks, n: nat)
    requires n <= |lines|
    ensures |Inserted(lines, blocks, n)| >= n
  {
    if n == 0 {
    } else {
      InsertedLength(lines, blocks, n - 1);
    }
  }

  // Inserting one more block, above a line that has none above or before it, is
  // a plain list insertion.
  lemma {:induction false} InsertBelow(lines: Lines, blocks: Blocks, idx: nat, block: Lines, n: nat)
    requires idx < n <= |lines| && forall i | i in blocks :: i > idx
    ensures |Inserted(lines, blocks, n)| >= n
    ensures Inserted(lines, blocks[idx := block], n) == Splice(Inserted(lines, blocks, n), idx, block)
  {
    InsertedLength(lines, blocks, n);
    var more := blocks[idx := block];
    if n == idx + 1 {
      InsertedNone(lines, blocks, idx);
      InsertedPrefix(lines, blocks, more, idx);
    } else {
      InsertBelow(lines, blocks, idx, block, n - 1);
      var rest := BlockAt(blocks, n - 1) + [lines[n - 1]];
      assert BlockAt(more, n - 1) == BlockAt(blocks, n - 1);
      SpliceOn(Inserted(lines, blocks, n - 1), idx, block, rest);
      InsertedStep(lines, blocks, n);
      InsertedStep(lines, more, n);
    }
  }

  lemma InsertedStep(lines: Lines, blocks: Blocks, n: nat)
    requires 0 < n <= |lines|
    ensures Inserted(lines, blocks, n) == Inserted(lines, blocks, n - 1) + (BlockAt(blocks, n - 1) + [lines[n - 1]])
  {}

  method Largest(keys: set<nat>) returns (m: nat)
    requires keys != {}
    ensures m in keys && forall k | k in keys :: k <= m
  {
    m :| m in keys;
    var rest := keys - {m};
    while rest != {}
      invariant rest <= keys && m in keys
      invariant forall k | k in keys && k !in rest :: k <= m
      decreases |rest|
    {
      var k :| k in rest;
      rest := rest - {k};
      if k > m {
        m := k;
      }
    }
  }

  // The insertions one by one, last index first, each block from its last line.
  method ApplyInsertions(lines: Lines, blocks: Blocks) returns (out: Lines)
    requires forall i | i in blocks :: i < |lines|
    ensures out == InsertAll(lines, blocks)
  {
    out := lines;
    var keys := blocks.Keys;
    ghost var done: Blocks := map[];
    InsertedNone(lines, done, |lines|);
    assert lines[..|lines|] == lines;
    while keys != {}
      invariant keys <= blocks.Keys && done.Keys == blocks.Keys - keys
      invariant forall i | i in done :: done[i] == blocks[i]
      invariant forall i, k | i in done && k in keys :: k < i
      invariant out == InsertAll(lines, done)
      decreases |keys|
    {
      var idx := Largest(keys);
      InsertBelow(lines, done, idx, blocks[idx], |lines|);
      out := InsertBlock(out, idx, blocks[idx]);
      done := done[idx := blocks[idx]];
      keys := keys - {idx};
    }
    assert done == blocks;
  }

  method InsertBlock(lines: Lines, idx: nat, block: Lines) returns (out: Lines)
    requires idx <= |lines|
    ensures out == Splice(lines, idx, block)
  {
    out := lines;
    for c := |block| downto 0
      invariant out == Splice(lines, idx, block[c..])
    {
      assert block[c..] == [block[c]] + block[c + 1..];
      out := out[..idx] + [block[c]] + out[idx..];
    }
    assert block[0..] == block;
  }

  // ---- Deleting what was inserted restores the file ----

  ghost function Interval(a: nat, b: nat): (s: set<nat>)
    ensures forall p: nat :: p in s <==> a <= p < b
    decreases b - a
  {
    if a >= b then {} else {a} + Interval(a + 1, b)
  }

  // The indices of the inserted lines.
  ghost function Comments(lines: Lines, blocks: Blocks, n: nat): set<nat>
    requires n <= |lines|
  {
    if n == 0 then {}
    else
      Comments(lines, blocks, n - 1) + Interval(|Inserted(lines, blocks, n - 1)|, At(lines, blocks, n - 1))
  }

  ghost function Without(lines: Lines, drop: set<nat>): Lines {
    if lines == [] then []
    else
      var last := |lines| - 1;
      Without(lines[..last], drop) + if last in drop then [] else [lines[last]]
  }

  lemma {:induction false} WithoutFrame(lines: Lines, drop: set<nat>, drop': set<nat>)
    requires forall i: nat | i < |lines| :: i in drop <==> i in drop'
    ensures Without(lines, drop) == Without(lines, drop')
  {
    if lines == [] {
    } else {
      WithoutFrame(lines[..|lines| - 1], drop, drop');
    }
  }

  lemma {:induction false} WithoutBlock(lines: Lines, block: Lines, drop: set<nat>)
    requires forall i: nat | |lines| <= i < |lines| + |block| :: i in drop
    ensures Without(lines + block, drop) == Without(lines, drop)
  {
    if block == [] {
      assert lines + block == lines;
    } else {
      var init := block[..|block| - 1];
      assert (lines + block)[..|lines| + |init|] == lines + init;
      WithoutBlock(lines, init, drop);
    }
  }

  lemma {:induction false} CommentsInside(lines: Lines, blocks: Blocks, n: nat)
    requires n <= |lines|
    ensures forall p | p in Comments(lines, blocks, n) :: p < |Inserted(lines, blocks, n)|
  {
    if n == 0 {
    } else {
      CommentsInside(lines, blocks, n - 1);
    }
  }

  lemma WithoutStep(before: Lines, block: Lines, line: string, drop: set<nat>)
    requires forall p | p in drop :: p < |before|
    ensures Without(before + block + [line], drop + Interval(|before|, |before| + |block|))
            == Without(before, drop) + [line]
  {
    var dropped := drop + Interval(|before|, |before| + |block|);
    WithoutFrame(before, drop, dropped);
    WithoutBlock(before, block, dropped);
    assert (before + block + [line])[..|before + block|] == before + block;
  }

  ghost predicate Restores(lines: Lines, blocks: Blocks, n: nat)
    requires n <= |lines|
  {
    Without(Inserted(lines, blocks, n), Comments(lines, blocks, n)) == lines[..n]
  }

  lemma {:induction false} DeleteRestores(lines: Lines, blocks: Blocks, n: nat)
    requires n <= |lines|
    ensures Restores(lines, blocks, n)
  {
    if n == 0 {
    } else {
      DeleteRestores(lines, blocks, n - 1);
      RestoresNext(lines, blocks, n);
    }
  }

  lemma RestoresNext(lines: Lines, blocks: Blocks, n: nat)
    requires 0 < n <= |lines| && Restores(lines, blocks, n - 1)
    ensures Restores(lines, blocks, n)
  {
    CommentsInside(lines, blocks, n - 1);
    WithoutStep(Inserted(lines, blocks, n - 1), BlockAt(blocks, n - 1), lines[n - 1], Comments(lines, blocks, n - 1));
    TakeNext(lines, n);
  }

  lemma TakeNext(lines: Lines, n: nat)
    requires 0 < n <= |lines|
    ensures lines[..n] == lines[..n - 1] + [lines[n - 1]]
  {}

  // ---- Functions, decorators and tags ----

  const TAG := "# TST-INT"

  predicate IsSpace(c: char) {
    c == ' ' || c == '\t' || c == '\n' || c == '\r' || c == 0xB as char || c == 0xC as char
  }

  predicate IsWord(c: char) {
    'a' <= c <= 'z' || 'A' <= c <= 'Z' || '0' <= c <= '9' || c == '_'
  }

  function Trimmed(line: string): string {
    if line != "" && IsSpace(line[0]) then Trimmed(line[1..]) else line
  }

  function Word(text: string): string {
    if text != "" && IsWord(text[0]) then [text[0]] + Word(text[1..]) else ""
  }

  // The pattern ^(\s*)def (test_\w+)\(
  predicate IsFunc(line: string) {
    var text := Trimmed(line);
    && "def test_" <= text
    && var word := Word(text[9..]);
       word != "" && "def test_" + word + "(" <= text
  }

  // The pattern ^\s*@
  predicate IsDecorator(line: string) {
    "@" <= Trimmed(line)
  }

  predicate IsTag(line: string) {
    TAG <= line
  }

  // ---- The patterns, read as patterns ----

  predicate AllSpaces(s: string) {
    forall i | 0 <= i < |s| :: IsSpace(s[i])
  }

  predicate AllWord(s: string) {
    forall i | 0 <= i < |s| :: IsWord(s[i])
  }

  lemma {:induction false} TrimmedIs(indent: string, text: string)
    requires AllSpaces(indent) && (text != "" ==> !IsSpace(text[0]))
    ensures Trimmed(indent + text) == text
  {
    if indent == "" {
      assert indent + text == text;
    } else {
      TrimmedIs(indent[1..], text);
      assert (indent + text)[1..] == indent[1..] + text;
    }
  }

  lemma {:induction false} TrimmedLeaves(line: string) returns (indent: string)
    ensures line == indent + Trimmed(line) && AllSpaces(indent)
    ensures Trimmed(line) != "" ==> !IsSpace(Trimmed(line)[0])
  {
    if line != "" && IsSpace(line[0]) {
      var rest := TrimmedLeaves(line[1..]);
      indent := [line[0]] + rest;
      assert line == [line[0]] + line[1..];
    } else {
      indent := "";
    }
  }

  lemma {:induction false} WordIs(word: string, rest: string)
    requires AllWord(word) && (rest != "" ==> !IsWord(rest[0]))
    ensures Word(word + rest) == word
  {
    if word == "" {
      assert word + rest == rest;
    } else {
      WordIs(word[1..], rest);
      assert (word + rest)[1..] == word[1..] + rest;
    }
  }

  lemma {:induction false} WordIsWord(text: string)
    ensures AllWord(Word(text))
  {
    if text != "" && IsWord(text[0]) {
      WordIsWord(text[1..]);
    }
  }

  // An indent, the words, a name, a parenthesis, and anything.
  ghost predicate IsFuncText(line: string, indent: string, name: string, rest: string) {
    && line == indent + ("def test_" + name + "(" + rest)
    && AllSpaces(indent) && AllWord(name) && name != ""
  }

  lemma FuncHasText(line: string) returns (indent: string, name: string, rest: string)
    requires IsFunc(line)
    ensures IsFuncText(line, indent, name, rest)
  {
    indent := TrimmedLeaves(line);
    var text := Trimmed(line);
    name := Word(text[9..]);
    WordIsWord(text[9..]);
    var head := "def test_" + name + "(";
    rest := text[|head|..];
    assert text == head + rest;
  }

  lemma TextIsFunc(line: string, indent: string, name: string, rest: string)
    requires IsFuncText(line, indent, name, rest)
    ensures IsFunc(line)
  {
    var text := "def test_" + name + "(" + rest;
    assert text[0] == 'd';
    TrimmedIs(indent, text);
    assert text[9..] == name + ("(" + rest);
    WordIs(name, "(" + rest);
    assert text[..9] == "def test_" && text[..9 + |name| + 1] == "def test_" + name + "(";
  }

  // A function's line is what the pattern ^(\s*)def (test_\w+)\( matches, indented or not.
  lemma FuncExactly(line: string)
    ensures IsFunc(line) <==> exists indent, name, rest :: IsFuncText(line, indent, name, rest)
  {
    if IsFunc(line) {
      var indent, name, rest := FuncHasText(line);
    }
    if indent, name, rest :| IsFuncText(line, indent, name, rest) {
      TextIsFunc(line, indent, name, rest);
    }
  }

  ghost predicate IsDecoratorText(line: string, indent: string, rest: string) {
    line == indent + ("@" + rest) && AllSpaces(indent)
  }

  lemma DecoratorHasText(line: string) returns (indent: string, rest: string)
    requires IsDecorator(line)
    ensures IsDecoratorText(line, indent, rest)
  {
    indent := TrimmedLeaves(line);
    rest := Trimmed(line)[1..];
    assert Trimmed(line) == "@" + rest;
  }

  lemma TextIsDecorator(line: string, indent: string, rest: string)
    requires IsDecoratorText(line, indent, rest)
    ensures IsDecorator(line)
  {
    TrimmedIs(indent, "@" + rest);
  }

  // And a decorator's what ^\s*@ matches.
  lemma DecoratorExactly(line: string)
    ensures IsDecorator(line) <==> exists indent, rest :: IsDecoratorText(line, indent, rest)
  {
    if IsDecorator(line) {
      var indent, rest := DecoratorHasText(line);
    }
    if indent, rest :| IsDecoratorText(line, indent, rest) {
      TextIsDecorator(line, indent, rest);
    }
  }

  // A tag is any line that begins as the plan's ids do.
  lemma TagExactly(line: string)
    ensures IsTag(line) <==> exists rest :: line == "# TST-INT" + rest
  {
    if IsTag(line) {
      assert line == TAG + line[|TAG|..];
    }
  }

  lemma LinesDiffer(line: string)
    ensures IsFunc(line) ==> !IsDecorator(line)
    ensures IsTag(line) ==> !IsFunc(line) && !IsDecorator(line)
  {
    var text := Trimmed(line);
    assert IsFunc(line) ==> text[0] == 'd';
    assert IsDecorator(line) ==> text[0] == '@';
    if IsTag(line) {
      assert line[0] == '#' && Trimmed(line) == line;
    }
  }

  // Where a comment for the function at line `i` goes: above its decorators.
  function Top(lines: Lines, i: nat): (top: nat)
    requires i < |lines|
    ensures top <= i
  {
    if i > 0 && IsDecorator(lines[i - 1]) then Top(lines, i - 1) else i
  }

  // Only decorators stand between the place and the function.
  lemma {:induction false} BelowTop(lines: Lines, i: nat, j: nat)
    requires i < |lines| && Top(lines, i) <= j < i
    ensures IsDecorator(lines[j])
  {
    if j == i - 1 {
    } else {
      BelowTop(lines, i - 1, j);
    }
  }

  lemma {:induction false} OverTop(lines: Lines, i: nat)
    requires i < |lines|
    ensures Top(lines, i) > 0 ==> !IsDecorator(lines[Top(lines, i) - 1])
  {
    if i > 0 && IsDecorator(lines[i - 1]) {
      OverTop(lines, i - 1);
    }
  }

  predicate IsTagged(lines: Lines, i: nat)
    requires i < |lines|
  {
    var top := Top(lines, i);
    top > 0 && IsTag(lines[top - 1])
  }

  predicate IsUntagged(lines: Lines, i: nat)
    requires i < |lines|
  {
    IsFunc(lines[i]) && !IsTagged(lines, i)
  }

  // No two functions share the place for their comment.
  lemma TopsDiffer(lines: Lines, i: nat, j: nat)
    requires i < j < |lines| && IsFunc(lines[i]) && IsFunc(lines[j])
    ensures i < Top(lines, j)
  {
    LinesDiffer(lines[i]);
    if Top(lines, j) <= i {
      BelowTop(lines, j, i);
    }
  }

  lemma {:induction false} TopIs(lines: Lines, i: nat, top: nat)
    requires top <= i < |lines|
    requires forall j | top <= j < i :: IsDecorator(lines[j])
    requires top > 0 ==> !IsDecorator(lines[top - 1])
    ensures Top(lines, i) == top
  {
    if top == i {
    } else {
      TopIs(lines, i - 1, top);
    }
  }

  // ---- Tagging keeps every function where it can be found ----

  // Blocks of tags, each above a function that had none.
  ghost predicate Proper(lines: Lines, blocks: Blocks) {
    forall k | k in blocks :: IsTagBlock(blocks[k]) && IsPlace(lines, k)
  }

  ghost predicate IsTagBlock(block: Lines) {
    block != [] && forall c | 0 <= c < |block| :: IsTag(block[c])
  }

  ghost predicate IsPlace(lines: Lines, k: nat) {
    exists i: nat :: i < |lines| && IsUntagged(lines, i) && Top(lines, i) == k
  }

  lemma {:induction false} InsertedGrows(lines: Lines, blocks: Blocks, n: nat, m: nat)
    requires n <= m <= |lines|
    ensures Inserted(lines, blocks, n) <= Inserted(lines, blocks, m)
  {
    if n == m {
    } else {
      InsertedGrows(lines, blocks, n, m - 1);
    }
  }

  lemma Lands(lines: Lines, blocks: Blocks, i: nat)
    requires i < |lines|
    ensures At(lines, blocks, i) < |InsertAll(lines, blocks)|
    ensures InsertAll(lines, blocks)[At(lines, blocks, i)] == lines[i]
  {
    InsertedGrows(lines, blocks, i + 1, |lines|);
    assert Inserted(lines, blocks, i + 1)[At(lines, blocks, i)] == lines[i];
  }

  lemma BlockLands(lines: Lines, blocks: Blocks, i: nat, c: nat)
    requires i < |lines| && c < |BlockAt(blocks, i)|
    ensures |Inserted(lines, blocks, i)| + c < At(lines, blocks, i) < |InsertAll(lines, blocks)|
    ensures InsertAll(lines, blocks)[|Inserted(lines, blocks, i)| + c] == BlockAt(blocks, i)[c]
  {
    Lands(lines, blocks, i);
    InsertedGrows(lines, blocks, i + 1, |lines|);
    assert Inserted(lines, blocks, i + 1)[|Inserted(lines, blocks, i)| + c] == BlockAt(blocks, i)[c];
  }

  lemma {:induction false} LineFrom(lines: Lines, blocks: Blocks, n: nat, p: nat) returns (i: nat)
    requires n <= |lines| && p < |Inserted(lines, blocks, n)|
    ensures i < n && |Inserted(lines, blocks, i)| <= p <= At(lines, blocks, i)
  {
    if p < |Inserted(lines, blocks, n - 1)| {
      i := LineFrom(lines, blocks, n - 1, p);
    } else {
      i := n - 1;
    }
  }

  lemma CommentLands(lines: Lines, blocks: Blocks, i: nat, p: nat)
    requires Proper(lines, blocks) && i < |lines|
    requires |Inserted(lines, blocks, i)| <= p < At(lines, blocks, i)
    ensures p < |InsertAll(lines, blocks)| && IsTag(InsertAll(lines, blocks)[p])
  {
    BlockLands(lines, blocks, i, p - |Inserted(lines, blocks, i)|);
  }

  // Every function of the new file is one of the old.
  lemma FuncsComeFrom(lines: Lines, blocks: Blocks, p: nat) returns (i: nat)
    requires Proper(lines, blocks) && p < |InsertAll(lines, blocks)|
    requires IsFunc(InsertAll(lines, blocks)[p])
    ensures i < |lines| && p == At(lines, blocks, i) && IsFunc(lines[i])
  {
    i := LineFrom(lines, blocks, |lines|, p);
    Lands(lines, blocks, i);
    LinesDiffer(InsertAll(lines, blocks)[p]);
    if p < At(lines, blocks, i) {
      CommentLands(lines, blocks, i, p);
    }
  }

  // No comment goes between a function and its decorators.
  lemma NoneBetween(lines: Lines, blocks: Blocks, i: nat, j: nat)
    requires Proper(lines, blocks) && i < |lines| && IsFunc(lines[i]) && Top(lines, i) < j <= i
    ensures j !in blocks
  {
    forall i': nat | i' < |lines| && IsFunc(lines[i']) ensures Top(lines, i') != j {
      if i' < i {
        TopsDiffer(lines, i', i);
      } else if i' > i {
        TopsDiffer(lines, i, i');
      }
    }
  }

  lemma {:induction false} StayTogether(lines: Lines, blocks: Blocks, a: nat, b: nat)
    requires a <= b < |lines| && forall j | a < j <= b :: j !in blocks
    ensures At(lines, blocks, b) == At(lines, blocks, a) + b - a
  {
    if a == b {
    } else {
      StayTogether(lines, blocks, a, b - 1);
      AtNext(lines, blocks, b);
    }
  }

  lemma AtNext(lines: Lines, blocks: Blocks, j: nat)
    requires 0 < j < |lines| && j !in blocks
    ensures At(lines, blocks, j) == At(lines, blocks, j - 1) + 1
  {}

  // What stands above line `i` in the new file.
  lemma AboveLine(lines: Lines, blocks: Blocks, i: nat)
    requires i < |lines| && (i in blocks ==> blocks[i] != [])
    ensures At(lines, blocks, i) < |InsertAll(lines, blocks)|
    ensures var at := At(lines, blocks, i);
            && (i in blocks ==> at > 0 && InsertAll(lines, blocks)[at - 1] == blocks[i][|blocks[i]| - 1])
            && (i !in blocks ==> (at > 0 <==> i > 0))
            && (i !in blocks && i > 0 ==> InsertAll(lines, blocks)[at - 1] == lines[i - 1])
  {
    Lands(lines, blocks, i);
    if i in blocks {
      BlockLands(lines, blocks, i, |blocks[i]| - 1);
    } else if i > 0 {
      Lands(lines, blocks, i - 1);
    }
  }

  lemma KeepTogether(lines: Lines, blocks: Blocks, i: nat, j: nat)
    requires Proper(lines, blocks) && i < |lines| && IsFunc(lines[i]) && Top(lines, i) <= j <= i
    ensures At(lines, blocks, j) == At(lines, blocks, Top(lines, i)) + j - Top(lines, i)
  {
    forall k | Top(lines, i) < k <= j ensures k !in blocks {
      NoneBetween(lines, blocks, i, k);
    }
    StayTogether(lines, blocks, Top(lines, i), j);
  }

  lemma DecoratorsMove(lines: Lines, blocks: Blocks, i: nat, p: nat)
    requires Proper(lines, blocks) && i < |lines| && IsFunc(lines[i])
    requires At(lines, blocks, Top(lines, i)) <= p < At(lines, blocks, i)
    ensures p < |InsertAll(lines, blocks)| && IsDecorator(InsertAll(lines, blocks)[p])
  {
    var top := Top(lines, i);
    var j := top + (p - At(lines, blocks, top));
    KeepTogether(lines, blocks, i, i);
    KeepTogether(lines, blocks, i, j);
    Lands(lines, blocks, j);
    BelowTop(lines, i, j);
  }

  // A function keeps its decorators.
  lemma TopMoves(lines: Lines, blocks: Blocks, i: nat)
    requires Proper(lines, blocks) && i < |lines| && IsFunc(lines[i])
    ensures At(lines, blocks, i) < |InsertAll(lines, blocks)|
    ensures Top(InsertAll(lines, blocks), At(lines, blocks, i)) == At(lines, blocks, Top(lines, i))
  {
    var out, top := InsertAll(lines, blocks), Top(lines, i);
    var top' := At(lines, blocks, top);
    KeepTogether(lines, blocks, i, i);
    Lands(lines, blocks, i);
    forall p | top' <= p < At(lines, blocks, i) ensures IsDecorator(out[p]) {
      DecoratorsMove(lines, blocks, i, p);
    }
    AboveLine(lines, blocks, top);
    OverTop(lines, i);
    if top in blocks {
      LinesDiffer(out[top' - 1]);
    }
    TopIs(out, At(lines, blocks, i), top');
  }

  // A function is tagged afterwards just when it was, or got a block.
  lemma TaggedAfter(lines: Lines, blocks: Blocks, i: nat)
    requires Proper(lines, blocks) && i < |lines| && IsFunc(lines[i])
    ensures At(lines, blocks, i) < |InsertAll(lines, blocks)|
    ensures IsTagged(InsertAll(lines, blocks), At(lines, blocks, i)) <==> IsTagged(lines, i) || Top(lines, i) in blocks
  {
    TopMoves(lines, blocks, i);
    AboveLine(lines, blocks, Top(lines, i));
  }

  // ---- Novel ids ----

  const DECIMAL := Span('0', '9')

  // A number with leading zeros up to three digits.
  function Padded(n: nat): (ds: seq<nat>)
    ensures IsBase(ds, 10)
  {
    var ds := Digits(n, 10);
    if |ds| < 3 then Zeros(3 - |ds|) + ds else ds
  }

  lemma PaddedValue(n: nat)
    ensures Value(Padded(n), 10) == n
  {
    var ds := Digits(n, 10);
    ValueOfDigits(n, 10);
    if |ds| < 3 {
      ValueAfterZeros(3 - |ds|, ds, 10);
    }
  }

  function Numeral(n: nat): string {
    Letters(Padded(n), DECIMAL)
  }

  // A numeral read as a decimal number.
  function DecimalValue(s: string): int {
    if s == "" then 0 else DecimalValue(s[..|s| - 1]) * 10 + (s[|s| - 1] as int - '0' as int)
  }

  lemma {:induction false} LettersAreDecimal(ds: seq<nat>)
    requires IsBase(ds, 10)
    ensures DecimalValue(Letters(ds, DECIMAL)) == Value(ds, 10)
    ensures forall c | c in Letters(ds, DECIMAL) :: '0' <= c <= '9'
  {
    if ds == [] {
    } else {
      var front, last := ds[..|ds| - 1], ds[|ds| - 1];
      LettersAreDecimal(front);
      var s := Letters(ds, DECIMAL);
      assert s[..|s| - 1] == Letters(front, DECIMAL) && s[|s| - 1] == DECIMAL[last];
    }
  }

  lemma DigitCount(n: nat)
    ensures n < 1000 ==> |Digits(n, 10)| <= 3
    ensures n >= 1000 ==> |Digits(n, 10)| > 3
  {
    var a, b := n / 10, n / 10 / 10;
    assert |Digits(n, 10)| == if n == 0 then 0 else |Digits(a, 10)| + 1;
    assert |Digits(a, 10)| == if a == 0 then 0 else |Digits(b, 10)| + 1;
    assert |Digits(b, 10)| == if b == 0 then 0 else |Digits(b / 10, 10)| + 1;
  }

  // A number is written in decimal, with zeros in front up to three digits and none
  // beyond.
  lemma NumeralIsDecimal(n: nat)
    ensures DecimalValue(Numeral(n)) == n && forall c | c in Numeral(n) :: '0' <= c <= '9'
    ensures if n < 1000 then |Numeral(n)| == 3 else |Numeral(n)| > 3 && Numeral(n)[0] != '0'
  {
    PaddedValue(n);
    LettersAreDecimal(Padded(n));
    DigitCount(n);
    if n >= 1000 {
      assert Digits(n, 10)[0] > 0;
    }
  }

  lemma NumeralsDiffer(m: nat, n: nat)
    requires Numeral(m) == Numeral(n)
    ensures m == n
  {
    LettersDiffer(Padded(m), Padded(n));
    PaddedValue(m);
    PaddedValue(n);
  }

  lemma LettersDiffer(ds: seq<nat>, es: seq<nat>)
    requires IsBase(ds, 10) && IsBase(es, 10)
    requires Letters(ds, DECIMAL) == Letters(es, DECIMAL)
    ensures ds == es
  {
    PlacesOfLetters(ds, DECIMAL);
    PlacesOfLetters(es, DECIMAL);
  }

  function NovelTag(n: nat): string {
    TAG + "-" + Numeral(n)
  }

  lemma NovelTagsDiffer(m: nat, n: nat)
    requires m != n
    ensures NovelTag(m) != NovelTag(n)
  {
    assert NovelTag(m)[|TAG| + 1..] == Numeral(m) && NovelTag(n)[|TAG| + 1..] == Numeral(n);
    if Numeral(m) == Numeral(n) {
      NumeralsDiffer(m, n);
    }
  }

  lemma NovelTagText(n: nat)
    ensures NovelTag(n) == "# TST-INT-" + Numeral(n)
  {
    assert TAG + "-" == "# TST-INT-";
  }

  // The untagged functions among the first `n` lines.
  function Untagged(lines: Lines, n: nat): nat
    requires n <= |lines|
  {
    if n == 0 then 0 else Untagged(lines, n - 1) + if IsUntagged(lines, n - 1) then 1 else 0
  }

  // The place and the number of each, in the order of the lines.
  function Numbers(lines: Lines, n: nat, next: nat): map<nat, nat>
    requires n <= |lines|
  {
    if n == 0 then map[]
    else
      var numbers := Numbers(lines, n - 1, next);
      if IsUntagged(lines, n - 1) then numbers[Top(lines, n - 1) := next + Untagged(lines, n - 1)] else numbers
  }

  function TagBlocks(numbers: map<nat, nat>): Blocks {
    map k | k in numbers :: [NovelTag(numbers[k])]
  }

  function Novel(lines: Lines, next: nat): Blocks {
    TagBlocks(Numbers(lines, |lines|, next))
  }

  // The place for the comment of line `i`, and whether the line wants one.
  method Look(lines: Lines, i: nat) returns (top: nat, untagged: bool)
    requires i < |lines|
    ensures top == Top(lines, i) && untagged == IsUntagged(lines, i)
  {
    top := i;
    while top > 0 && IsDecorator(lines[top - 1])
      invariant top <= i && forall j | top <= j < i :: IsDecorator(lines[j])
    {
      top := top - 1;
    }
    TopIs(lines, i, top);
    untagged := IsFunc(lines[i]) && !(top > 0 && IsTag(lines[top - 1]));
  }

  method AssignNovelIds(lines: Lines, next: nat) returns (out: Lines, count: nat, next': nat)
    ensures out == InsertAll(lines, Novel(lines, next))
    ensures count == Untagged(lines, |lines|) && next' == next + count
  {
    var numbers: map<nat, nat> := map[];
    count, next' := 0, next;
    for i := 0 to |lines|
      invariant numbers == Numbers(lines, i, next)
      invariant count == Untagged(lines, i) && next' == next + count
    {
      var top, untagged := Look(lines, i);
      if untagged {
        numbers := numbers[top := next'];
        count, next' := count + 1, next' + 1;
      }
    }
    NumbersInside(lines, |lines|, next);
    out := ApplyInsertions(lines, TagBlocks(numbers));
  }

  lemma {:induction false} NumbersInside(lines: Lines, n: nat, next: nat)
    requires n <= |lines|
    ensures forall k | k in Numbers(lines, n, next) :: k < n && IsPlace(lines, k)
  {
    if n == 0 {
    } else {
      NumbersInside(lines, n - 1, next);
    }
  }

  lemma NovelTagIsTag(n: nat)
    ensures IsTagBlock([NovelTag(n)])
  {}

  lemma NovelIsProper(lines: Lines, next: nat)
    ensures Proper(lines, Novel(lines, next))
  {
    var numbers := Numbers(lines, |lines|, next);
    NumbersInside(lines, |lines|, next);
    forall k | k in Novel(lines, next) ensures IsTagBlock(Novel(lines, next)[k]) && IsPlace(lines, k) {
      NovelTagIsTag(numbers[k]);
    }
  }

  lemma {:induction false} NumberAt(lines: Lines, n: nat, next: nat, i: nat)
    requires i < n <= |lines| && IsUntagged(lines, i)
    ensures Top(lines, i) in Numbers(lines, n, next)
    ensures Numbers(lines, n, next)[Top(lines, i)] == next + Untagged(lines, i)
  {
    if i < n - 1 {
      NumberAt(lines, n - 1, next, i);
      if IsUntagged(lines, n - 1) {
        TopsDiffer(lines, i, n - 1);
      }
    }
  }

  // The main result: every function is tagged, each that was not gets its own
  // number, and a second pass finds nothing to do.
  lemma EveryFunctionTagged(lines: Lines, next: nat)
    ensures var out := InsertAll(lines, Novel(lines, next));
            && (forall p: nat | p < |out| :: !IsUntagged(out, p))
            && forall again :: InsertAll(out, Novel(out, again)) == out
  {
    var blocks := Novel(lines, next);
    var out := InsertAll(lines, blocks);
    NovelIsProper(lines, next);
    forall p: nat | p < |out| ensures !IsUntagged(out, p) {
      if IsFunc(out[p]) {
        var i := FuncsComeFrom(lines, blocks, p);
        TaggedAfter(lines, blocks, i);
        if IsUntagged(lines, i) {
          NumberAt(lines, |lines|, next, i);
        }
      }
    }
    forall again ensures InsertAll(out, Novel(out, again)) == out {
      NumbersNone(out, |out|, again);
      InsertedNone(out, map[], |out|);
    }
  }

  lemma {:induction false} NumbersNone(lines: Lines, n: nat, next: nat)
    requires n <= |lines| && forall p: nat | p < n :: !IsUntagged(lines, p)
    ensures Numbers(lines, n, next) == map[] && Untagged(lines, n) == 0
  {
    if n == 0 {
    } else {
      NumbersNone(lines, n - 1, next);
    }
  }

  // In the new file line `i` has `tag` right above its decorators.
  ghost predicate HasTag(lines: Lines, blocks: Blocks, i: nat, tag: string)
    requires i < |lines|
  {
    var out, at := InsertAll(lines, blocks), At(lines, blocks, i);
    && at < |out| && out[at] == lines[i]
    && Top(out, at) > 0 && out[Top(out, at) - 1] == tag
  }

  lemma TagAbove(lines: Lines, blocks: Blocks, i: nat, tag: string)
    requires i < |lines| && IsFunc(lines[i]) && Proper(lines, blocks)
    requires Top(lines, i) in blocks && blocks[Top(lines, i)] == [tag]
    ensures HasTag(lines, blocks, i, tag)
  {
    TopMoves(lines, blocks, i);
    TagLands(lines, blocks, i, Top(lines, i), tag);
  }

  lemma TagLands(lines: Lines, blocks: Blocks, i: nat, top: nat, tag: string)
    requires top <= i < |lines| && top in blocks && blocks[top] == [tag]
    requires At(lines, blocks, i) < |InsertAll(lines, blocks)|
    requires Top(InsertAll(lines, blocks), At(lines, blocks, i)) == At(lines, blocks, top)
    ensures HasTag(lines, blocks, i, tag)
  {
    Lands(lines, blocks, i);
    AboveLine(lines, blocks, top);
  }

  // The k-th untagged function gets the k-th number, right above its decorators.
  lemma EachGetsItsNumber(lines: Lines, next: nat, i: nat)
    requires i < |lines| && IsUntagged(lines, i)
    ensures HasTag(lines, Novel(lines, next), i, NovelTag(next + Untagged(lines, i)))
  {
    var n := next + Untagged(lines, i);
    NovelIsProper(lines, next);
    NumberAt(lines, |lines|, next, i);
    NumberAbove(lines, Numbers(lines, |lines|, next), i, n);
  }

  lemma NumberAbove(lines: Lines, numbers: map<nat, nat>, i: nat, n: nat)
    requires i < |lines| && IsFunc(lines[i]) && Proper(lines, TagBlocks(numbers))
    requires Top(lines, i) in numbers && numbers[Top(lines, i)] == n
    ensures HasTag(lines, TagBlocks(numbers), i, NovelTag(n))
  {
    TagBlock(numbers, Top(lines, i), n);
    TagAbove(lines, TagBlocks(numbers), i, NovelTag(n));
  }

  lemma TagBlock(numbers: map<nat, nat>, k: nat, n: nat)
    requires k in numbers && numbers[k] == n
    ensures k in TagBlocks(numbers) && TagBlocks(numbers)[k] == [NovelTag(n)]
  {}

  // No two functions get the same number.
  lemma {:induction false} NumbersDiffer(lines: Lines, i: nat, j: nat)
    requires i < j <= |lines| && IsUntagged(lines, i)
    ensures Untagged(lines, i) < Untagged(lines, j)
  {
    if i == j - 1 {
    } else {
      NumbersDiffer(lines, i, j - 1);
    }
  }

  // ---- Fresh tags ----

  // How a number is written as a comment: NovelTag, or any other way.
  type Numbering = nat -> string

  ghost predicate IsInjective(comment: Numbering) {
    forall m: nat, n: nat | m != n :: comment(m) != comment(n)
  }

  lemma NovelTagIsInjective()
    ensures IsInjective(NovelTag)
  {
    forall m: nat, n: nat | m != n ensures NovelTag(m) != NovelTag(n) {
      NovelTagsDiffer(m, n);
    }
  }

  // The comment that the function at line `i` gets.
  function TagFor(lines: Lines, next: nat, comment: Numbering, i: nat): string
    requires i <= |lines|
  {
    comment(next + Untagged(lines, i))
  }

  // No two functions of a file get the same tag.
  lemma TagsDiffer(lines: Lines, next: nat, comment: Numbering, i: nat, j: nat)
    requires IsInjective(comment)
    requires i < |lines| && j < |lines| && i != j && IsUntagged(lines, i) && IsUntagged(lines, j)
    ensures TagFor(lines, next, comment, i) != TagFor(lines, next, comment, j)
  {
    if i < j {
      NumbersDiffer(lines, i, j);
    } else {
      NumbersDiffer(lines, j, i);
    }
  }

  // Nor do functions of two files of one run: the second goes on from the first.
  lemma TagsDifferAcrossFiles(first: Lines, second: Lines, next: nat, comment: Numbering, i: nat, j: nat)
    requires IsInjective(comment)
    requires i < |first| && j < |second| && IsUntagged(first, i) && IsUntagged(second, j)
    ensures TagFor(first, next, comment, i) != TagFor(second, next + Untagged(first, |first|), comment, j)
  {
    NumbersDiffer(first, i, |first|);
    var m, n := next + Untagged(first, i), next + Untagged(first, |first|) + Untagged(second, j);
    NumberedApart(first, second, next, comment, i, j, m, n);
  }

  lemma NumberedApart(
    first: Lines, second: Lines, next: nat, comment: Numbering, i: nat, j: nat, m: nat, n: nat)
    requires IsInjective(comment) && i <= |first| && j <= |second| && m != n
    requires m == next + Untagged(first, i) && n == next + Untagged(first, |first|) + Untagged(second, j)
    ensures TagFor(first, next, comment, i) == comment(m)
    ensures TagFor(second, next + Untagged(first, |first|), comment, j) == comment(n)
    ensures comment(m) != comment(n)
  {}

  // Every number below the count goes to some function.
  lemma {:induction false} NumberReached(lines: Lines, n: nat, k: nat) returns (i: nat)
    requires n <= |lines| && k < Untagged(lines, n)
    ensures i < n && IsUntagged(lines, i) && Untagged(lines, i) == k
  {
    if k == Untagged(lines, n - 1) {
      i := n - 1;
    } else {
      i := NumberReached(lines, n - 1, k);
    }
  }

  // Some function is about to get a tag that the file already holds.
  ghost predicate Repeats(lines: Lines, next: nat, comment: Numbering) {
    exists i: nat :: RepeatsAt(lines, next, comment, i)
  }

  predicate RepeatsAt(lines: Lines, next: nat, comment: Numbering, i: nat) {
    i < |lines| && IsUntagged(lines, i) && TagFor(lines, next, comment, i) in lines
  }

  // The file holds one of the `count` numbers from `next` on.
  ghost predicate Holds(lines: Lines, next: nat, count: nat, comment: Numbering) {
    exists n: nat :: HoldsNumber(lines, next, count, comment, n)
  }

  predicate HoldsNumber(lines: Lines, next: nat, count: nat, comment: Numbering, n: nat) {
    next <= n < next + count && comment(n) in lines
  }

  // The new tags are fresh exactly when the file holds none of the numbers that are
  // about to be given out.
  lemma TagsFreshExactly(lines: Lines, next: nat, comment: Numbering)
    ensures Repeats(lines, next, comment) <==> Holds(lines, next, Untagged(lines, |lines|), comment)
  {
    if Repeats(lines, next, comment) {
      RepeatsHeld(lines, next, comment);
    }
    if Holds(lines, next, Untagged(lines, |lines|), comment) {
      HeldRepeats(lines, next, comment);
    }
  }

  lemma RepeatsHeld(lines: Lines, next: nat, comment: Numbering)
    requires Repeats(lines, next, comment)
    ensures Holds(lines, next, Untagged(lines, |lines|), comment)
  {
    var i: nat :| RepeatsAt(lines, next, comment, i);
    NumbersDiffer(lines, i, |lines|);
    assert HoldsNumber(lines, next, Untagged(lines, |lines|), comment, next + Untagged(lines, i));
  }

  lemma HeldRepeats(lines: Lines, next: nat, comment: Numbering)
    requires Holds(lines, next, Untagged(lines, |lines|), comment)
    ensures Repeats(lines, next, comment)
  {
    var n: nat :| HoldsNumber(lines, next, Untagged(lines, |lines|), comment, n);
    var i := NumberReached(lines, |lines|, n - next);
    ReachedRepeats(lines, next, comment, i, n);
  }

  lemma ReachedRepeats(lines: Lines, next: nat, comment: Numbering, i: nat, n: nat)
    requires i < |lines| && IsUntagged(lines, i) && next + Untagged(lines, i) == n && comment(n) in lines
    ensures Repeats(lines, next, comment)
  {
    assert RepeatsAt(lines, next, comment, i);
  }

  const FIRST := "def test_a():"
  const ADDED := "def test_b():"

  lemma SampleLines()
    ensures IsFunc(FIRST) && IsFunc(ADDED)
  {
    assert Trimmed(FIRST) == FIRST && Trimmed(ADDED) == ADDED;
    assert Word(FIRST[9..]) == "a" && Word(ADDED[9..]) == "b";
  }

  lemma FirstIsUntagged()
    ensures IsUntagged([FIRST], 0)
  {
    SampleLines();
  }

  lemma FirstRun(next: nat)
    ensures InsertAll([FIRST], Novel([FIRST], next)) == [NovelTag(next), FIRST]
  {
    FirstIsUntagged();
    var lines := [FIRST];
    NumberAt(lines, 1, next, 0);
    TagBlock(Numbers(lines, 1, next), 0, next);
    assert Inserted(lines, Novel(lines, next), 0) == [];
  }

  lemma SecondRun(next: nat, comment: Numbering)
    requires IsTag(comment(next))
    ensures Repeats([comment(next), FIRST, ADDED], next, comment)
  {
    SampleLines();
    var lines := [comment(next), FIRST, ADDED];
    LinesDiffer(lines[0]);
    LinesDiffer(FIRST);
    assert !IsUntagged(lines, 0) && !IsUntagged(lines, 1) && IsUntagged(lines, 2);
    assert Untagged(lines, 1) == 0 && Untagged(lines, 2) == 0;
    assert TagFor(lines, next, comment, 2) == lines[0];
    assert RepeatsAt(lines, next, comment, 2);
  }

  // Every run of the script starts at the number after the plan's last, so a
  // function added to a file that an earlier run has tagged gets a number that is
  // taken.
  lemma RerunRepeats(next: nat)
    ensures Repeats(InsertAll([FIRST], Novel([FIRST], next)) + [ADDED], next, NovelTag)
  {
    FirstRun(next);
    NovelTagIsTag(next);
    assert IsTag([NovelTag(next)][0]);
    SecondRun(next, NovelTag);
    assert [NovelTag(next), FIRST] + [ADDED] == [NovelTag(next), FIRST, ADDED];
  }
}
