/** gc_normalize_block: the in-place filter that a line of G-code passes first. Characters are
    unsigned 8-bit codes, NUL ends the line. */
module Normalizer {

  const NUL: char := '\0'

  /** What the surroundings of the parser ask for. */
  datatype Setup = Setup(
    blockDelete: bool,      // sys.flags.block_delete_enabled
    skipBlocks: bool,       // gc_state.skip_blocks
    wantMessage: bool,      // message handling is on and the caller passed a place for the message
    supply: string -> Option<string>,   // grbl.on_process_gcode_comment: a message for a comment, or none
    wantComments: bool,     // grbl.on_gcode_comment is set
    answer: string -> int   // and the status it returns
  ) {
    function Supplied(text: string): Option<string> {
      supply(text)
    }

    function Answer(text: string): int {
      answer(text)
    }
  }

  datatype Option<+T> = None | Some(value: T)

  /** The handlers' view: the extracted message buffer, the comments reported so far, and the status that the last of
      them was answered with. */
  datatype Heard = Heard(message: Option<string>, comments: seq<string>, status: int)

  function Caps(c: char): (r: char)
    ensures r < 'a' || 'z' < r
  {
    if 'a' <= c <= 'z' then (c as int - 32) as char else c
  }

  function Lower(c: char): char {
    if 'A' <= c <= 'Z' then (c as int + 32) as char else c
  }

  /** `strncasecmp(s, "MSG,", 4) == 0`. */
  predicate IsMessage(s: string) {
    |s| >= 4 && Lower(s[0]) == 'm' && Lower(s[1]) == 's' && Lower(s[2]) == 'g' && s[3] == ','
  }

  function SkipSpaces(s: string): (r: string)
    ensures |r| <= |s| && r == s[|s| - |r|..]
  {
    if s != [] && s[0] == ' ' then SkipSpaces(s[1..]) else s
  }

  /** What is done with the text of a finished comment. */
  function Hear(cfg: Setup, h: Heard, text: string): Heard {
    var asked := cfg.wantMessage && h.message.None?;
    if asked && cfg.Supplied(text).Some? then h.(message := cfg.Supplied(text))
    else if asked && IsMessage(text) then h.(message := Some(SkipSpaces(text[4..]) + [NUL]))
    else if text != [] && h.message.None? && cfg.wantComments then
      h.(comments := h.comments + [text], status := cfg.Answer(text))
    else h
  }

  /** The result of filtering, with what the handlers heard on the way. */
  datatype Filtered = Filtered(text: string, heard: Heard)

  /** The filter as a pure function of the remaining characters. `comment` is the text since the last
      left parenthesis, if one is open. */
  function Filter(cfg: Setup, s: string, comment: Option<string>, h: Heard): (f: Filtered) {
    if s == [] then Filtered([], h)
    else
      var c, rest := s[0], s[1..];
      if c <= ' ' then Filter(cfg, rest, Grow(comment, c), h)
      else if c == ';' && comment.None? then Filtered([], h)
      else if c == '(' then Filter(cfg, rest, Some([]), h)
      else if c == ')' then
        Filter(cfg, rest, None, if comment.Some? && !cfg.skipBlocks then Hear(cfg, h, comment.value) else h)
      else if comment.Some? then Filter(cfg, rest, Grow(comment, c), h)
      else
        var f := Filter(cfg, rest, None, h);
        Filtered([Caps(c)] + f.text, f.heard)
  }

  function Grow(comment: Option<string>, c: char): Option<string> {
    if comment.Some? then Some(comment.value + [c]) else None
  }

  function SkipBlanks(s: string): (r: string)
    ensures |r| <= |s| && r == s[|s| - |r|..] && (r != [] ==> r[0] > ' ')
  {
    if s != [] && s[0] <= ' ' then SkipBlanks(s[1..]) else s
  }

  /** A whole line. */
  function Normalized(cfg: Setup, line: string, h: Heard): Filtered {
    var s := SkipBlanks(line);
    if s == [] || s[0] == ';' || (s[0] == '/' && cfg.blockDelete) then Filtered([], h)
    else Filter(cfg, if s[0] == '/' then s[1..] else s, None, h)
  }

  // ---------------------------------------------------------------- the source's loop

  /** `text` is the line that starts at position i of a buffer. */
  ghost predicate Holds(block: seq<char>, i: nat, text: string) {
    && i + |text| < |block|
    && (forall k :: 0 <= k < |text| ==> block[i + k] == text[k] != NUL)
    && block[i + |text|] == NUL
  }

  lemma HoldsHead(block: seq<char>, i: nat, text: string)
    requires Holds(block, i, text)
    ensures i < |block| && (block[i] == NUL <==> text == [])
  {
    if text != [] {
      assert block[i + 0] == text[0];
    }
  }

  lemma HoldsAfterWrite(block: seq<char>, i: nat, text: string, j: nat, c: char)
    requires Holds(block, i, text) && j < i < |block|
    ensures Holds(block[j := c], i, text)
  {
  }

  lemma HoldsWritten(block: seq<char>, i: nat, j: nat, text: string)
    requires i <= j < |block| && block[i..j] == text && NUL !in text && block[j] == NUL
    ensures Holds(block, i, text)
  {
    assert forall k :: 0 <= k < |text| ==> block[i + k] == text[k];
  }

  lemma HoldsRest(block: seq<char>, i: nat, text: string)
    requires Holds(block, i, text) && text != []
    ensures Holds(block, i + 1, text[1..]) && block[i] == text[0] != NUL
  {
    forall k | 0 <= k < |text| - 1
      ensures block[i + 1 + k] == text[1..][k] != NUL
    {
      assert block[i + (k + 1)] == text[k + 1];
    }
  }

  /** Replaces the line in `block` by its normal form and returns where that starts. */
  method NormalizeBlock(block: array<char>, cfg: Setup, heard: Heard, ghost line: string)
    returns (start: nat, now: Heard)
    requires Holds(block[..], 0, line)
    modifies block
    ensures Holds(block[..], start, Normalized(cfg, line, heard).text)
    ensures now == Normalized(cfg, line, heard).heard
  {
    hide SkipBlanks, Filter;
    start, now := 0, heard;
    ghost var text := line;
    while block[start] != NUL && block[start] <= ' '
      invariant Holds(block[..], start, text)
      invariant SkipBlanks(line) == SkipBlanks(text)
      decreases |text|
    {
      HoldsRest(block[..], start, text);
      SkipBlanksStep(text);
      start := start + 1;
      text := text[1..];
    }
    SkipBlanksStep(text);
    if text != [] {
      HoldsRest(block[..], start, text);
    }

    if block[start] == ';' || (block[start] == '/' && cfg.blockDelete) {
      block[start] := NUL;
      return;
    }
    if block[start] == '/' {
      start := start + 1;
      text := text[1..];
    }
    FilterNothing(cfg, None, heard);
    now := FilterInPlace(block, start, cfg, heard, text);
  }

  lemma SkipBlanksStep(s: string)
    ensures SkipBlanks(s) == if s != [] && s[0] <= ' ' then SkipBlanks(s[1..]) else s
  {
  }

  lemma SkipSpacesStep(s: string)
    ensures SkipSpaces(s) == if s != [] && s[0] == ' ' then SkipSpaces(s[1..]) else s
  {
  }

  /** The loop's view of the buffer: what it has written, the comment text behind an open
      parenthesis, and the line it has not read. */
  datatype View = View(written: string, open: Option<string>, rest: string)

  ghost predicate Shows(block: seq<char>, start: nat, s1: nat, s2: nat, comment: Option<nat>, v: View) {
    && start <= s2 <= s1 < |block|
    && Holds(block, s1, v.rest) && (block[s1] == NUL <==> v.rest == [])
    && block[start..s2] == v.written && NUL !in v.written
    && (if comment.None? then v.open.None?
        else v.open.Some? && s2 < comment.value <= s1
             && block[comment.value..s1] == v.open.value && NUL !in v.open.value)
  }

  lemma ShowsNext(block: seq<char>, start: nat, s1: nat, s2: nat, comment: Option<nat>, v: View)
    requires Shows(block, start, s1, s2, comment, v) && v.rest != []
    ensures block[s1] == v.rest[0] != NUL
    ensures Shows(block, start, s1 + 1, s2, comment, v.(open := Grow(v.open, v.rest[0]), rest := v.rest[1..]))
    ensures Shows(block, start, s1 + 1, s2, Some(s1 + 1), v.(open := Some([]), rest := v.rest[1..]))
    ensures Shows(block, start, s1 + 1, s2, None, v.(open := None, rest := v.rest[1..]))
  {
    HoldsRest(block, s1, v.rest);
    HoldsHead(block, s1 + 1, v.rest[1..]);
    hide Holds;
    if comment.Some? {
      SliceGrows(block, comment.value, s1);
    }
  }

  lemma SliceGrows(block: seq<char>, i: nat, j: nat)
    requires i <= j < |block|
    ensures block[i..j + 1] == block[i..j] + [block[j]]
  {
  }

  /** A character written behind the read pointer. */
  lemma ShowsWritten(block: seq<char>, start: nat, s1: nat, s2: nat, v: View, c: char)
    requires Shows(block, start, s1, s2, None, v) && s2 < s1 && c != NUL
    ensures Shows(block[s2 := c], start, s1, s2 + 1, None, v.(written := v.written + [c]))
  {
    HoldsAfterWrite(block, s1, v.rest, s2, c);
    hide Holds;
    assert block[s2 := c][start..s2 + 1] == block[start..s2] + [c];
  }

  /** A terminator written at the end of a comment that has just been read. */
  lemma ShowsCut(block: seq<char>, start: nat, s1: nat, s2: nat, v: View)
    requires Shows(block, start, s1, s2, None, v) && s2 < s1
    ensures Shows(block[s1 - 1 := NUL], start, s1, s2, None, v)
  {
    HoldsAfterWrite(block, s1, v.rest, s1 - 1, NUL);
    hide Holds;
    assert block[s1 - 1 := NUL][start..s2] == block[start..s2];
  }

  ghost function Joined(cfg: Setup, v: View, now: Heard): Filtered {
    var f := Filter(cfg, v.rest, v.open, now);
    Filtered(v.written + f.text, f.heard)
  }

  lemma JoinedStep(cfg: Setup, v: View, now: Heard)
    requires v.rest != []
    ensures var c, w := v.rest[0], v.(rest := v.rest[1..]);
            Joined(cfg, v, now)
            == if c <= ' ' then Joined(cfg, w.(open := Grow(v.open, c)), now)
               else if c == ';' && v.open.None? then Joined(cfg, v.(rest := []), now)
               else if c == '(' then Joined(cfg, w.(open := Some([])), now)
               else if c == ')' then
                 Joined(cfg, w.(open := None), if v.open.Some? && !cfg.skipBlocks then Hear(cfg, now, v.open.value) else now)
               else if v.open.Some? then Joined(cfg, w.(open := Grow(v.open, c)), now)
               else Joined(cfg, w.(written := v.written + [Caps(c)]), now)
  {
    hide Filter, Hear;
    FilterUnfold(cfg, v.rest, v.open, now);
    FilterNothing(cfg, v.open, now);
    var f := Filter(cfg, v.rest[1..], None, now);
    assert v.written + ([Caps(v.rest[0])] + f.text) == v.written + [Caps(v.rest[0])] + f.text;
  }

  /** The loop with a read pointer s1 and a write pointer s2. */
  method FilterInPlace(block: array<char>, start: nat, cfg: Setup, heard: Heard, ghost text: string)
    returns (now: Heard)
    requires Holds(block[..], start, text)
    modifies block
    ensures Holds(block[..], start, Filter(cfg, text, None, heard).text)
    ensures now == Filter(cfg, text, None, heard).heard
  {
    hide Filter, Holds, Hear, Joined;
    now := heard;
    var s1, s2 := start, start;
    var comment: Option<nat> := None;
    ghost var v := View("", None, text);
    HoldsHead(block[..], s1, text);
    while block[s1] != NUL
      invariant start <= s2 <= s1 < block.Length
      invariant Shows(block[..], start, s1, s2, comment, v)
      invariant Joined(cfg, View("", None, text), heard) == Joined(cfg, v, now)
      decreases |v.rest|
    {
      ShowsNext(block[..], start, s1, s2, comment, v);
      JoinedStep(cfg, v, now);
      var c := block[s1];
      ghost var before, w := block[..], v.(rest := v.rest[1..]);
      if c == ';' && comment.None? {
        block[s1] := NUL;
        v := v.(rest := "");
        assert block[start..s2] == before[start..s2];
        HoldsWritten(block[..], s1, s1, "");
        continue;
      }
      if c > ' ' && c == '(' {
        comment := Some(s1 + 1);
        w := w.(open := Some([]));
      } else if c > ' ' && c == ')' {
        w := w.(open := None);
        if comment.Some? && !cfg.skipBlocks {
          ShowsCut(before, start, s1 + 1, s2, w);
          block[s1] := NUL;
          assert block[..] == before[s1 := NUL];
          assert block[comment.value..s1] == before[comment.value..s1];
          now := Report(block, comment.value, s1, cfg, now);
        }
        comment := None;
      } else {
        w := w.(open := Grow(v.open, c));
        if c > ' ' && comment.None? {
          ShowsWritten(before, start, s1 + 1, s2, w, Caps(c));
          block[s2] := Caps(c);
          assert block[..] == before[s2 := Caps(c)];
          s2 := s2 + 1;
          w := w.(written := v.written + [Caps(c)]);
        }
      }
      s1 := s1 + 1;
      v := w;
    }
    JoinedDone(cfg, View("", None, text), heard, v, now);
    block[s2] := NUL;
    HoldsWritten(block[..], start, s2, v.written);
  }

  lemma JoinedDone(cfg: Setup, u: View, heard: Heard, v: View, now: Heard)
    requires u.written == [] && v.rest == []
    requires Joined(cfg, u, heard) == Joined(cfg, v, now)
    ensures Filter(cfg, u.rest, u.open, heard) == Filtered(v.written, now)
  {
    FilterNothing(cfg, v.open, now);
    var f := Filter(cfg, u.rest, u.open, heard);
    assert [] + f.text == f.text;
    assert v.written + [] == v.written;
  }

  lemma FilterNothing(cfg: Setup, comment: Option<string>, h: Heard)
    ensures Filter(cfg, [], comment, h) == Filtered([], h)
  {
  }

  lemma FilterUnfold(cfg: Setup, s: string, comment: Option<string>, h: Heard)
    requires s != []
    ensures var c, rest := s[0], s[1..];
            Filter(cfg, s, comment, h)
            == if c <= ' ' then Filter(cfg, rest, Grow(comment, c), h)
               else if c == ';' && comment.None? then Filtered([], h)
               else if c == '(' then Filter(cfg, rest, Some([]), h)
               else if c == ')' then
                 Filter(cfg, rest, None, if comment.Some? && !cfg.skipBlocks then Hear(cfg, h, comment.value) else h)
               else if comment.Some? then Filter(cfg, rest, Grow(comment, c), h)
               else var f := Filter(cfg, rest, None, h); Filtered([Caps(c)] + f.text, f.heard)
  {
  }

  /** A comment that ends at `end` goes to the message buffer or to the comment handler. */
  method Report(block: array<char>, comment: nat, end: nat, cfg: Setup, heard: Heard) returns (now: Heard)
    requires comment <= end < block.Length && block[end] == NUL && NUL !in block[comment..end]
    ensures now == Hear(cfg, heard, block[comment..end])
  {
    hide SkipSpaces;
    now := heard;
    if cfg.wantMessage && now.message.None? {
      now := now.(message := cfg.Supplied(block[comment..end]));
      if now.message.None? && IsMessage(block[comment..end]) {
        var message := CopyMessage(block, comment, end);
        now := now.(message := Some(message));
      }
    }
    if comment < end && now.message.None? && cfg.wantComments {
      now := now.(comments := now.comments + [block[comment..end]], status := cfg.Answer(block[comment..end]));
    }
  }

  /** The text after `MSG,` and its leading spaces, with its terminator: `len` characters from `p` on. */
  method CopyMessage(block: array<char>, comment: nat, end: nat) returns (message: string)
    requires comment + 4 <= end < block.Length && block[end] == NUL && NUL !in block[comment..end]
    ensures message == SkipSpaces(block[comment..end][4..]) + [NUL]
  {
    hide SkipSpaces, Holds;
    var p, len := comment + 4, end - comment - 3;
    ghost var text := TextAfter(block[..], comment, end);
    ghost var left := text;
    HoldsHead(block[..], p, left);
    while block[p] == ' '
      invariant p + |left| == end && len == |left| + 1
      invariant Holds(block[..], p, left) && (block[p] == NUL <==> left == [])
      invariant SkipSpaces(text) == SkipSpaces(left)
      decreases |left|
    {
      HoldsRest(block[..], p, left);
      SkipSpacesStep(left);
      p, len, left := p + 1, len - 1, left[1..];
      HoldsHead(block[..], p, left);
    }
    SkipSpacesStep(left);
    if left != [] {
      HoldsRest(block[..], p, left);
    }
    HoldsSlice(block[..], p, left);
    message := block[p..p + len];
    assert block[..][p..p + len] == block[p..p + len];
  }

  /** The text of a comment after its first four characters. */
  lemma TextAfter(block: seq<char>, comment: nat, end: nat) returns (text: string)
    requires comment + 4 <= end < |block| && block[end] == NUL && NUL !in block[comment..end]
    ensures text == block[comment..end][4..] && |text| == end - comment - 4
    ensures Holds(block, comment + 4, text)
  {
    text := block[comment..end][4..];
    assert text == block[comment + 4..end];
    assert forall k :: 0 <= k < |text| ==> text[k] in block[comment..end];
    HoldsWritten(block, comment + 4, end, text);
  }

  lemma HoldsSlice(block: seq<char>, i: nat, text: string)
    requires Holds(block, i, text)
    ensures i + |text| < |block| && block[i..i + |text| + 1] == text + [NUL]
  {
    assert forall k :: 0 <= k < |text| ==> block[i + k] == text[k];
  }

  // ---------------------------------------------------------------- what a normal form is

  /** A character that the normal form may hold. */
  predicate Plain(c: char) {
    c > ' ' && c != ';' && c != '(' && c != ')' && !('a' <= c <= 'z')
  }

  lemma {:induction false} FilterIsPlain(cfg: Setup, s: string, comment: Option<string>, h: Heard)
    ensures forall c :: c in Filter(cfg, s, comment, h).text ==> Plain(c)
  {
    if s != [] {
      var c, rest := s[0], s[1..];
      FilterIsPlain(cfg, rest, Grow(comment, c), h);
      FilterIsPlain(cfg, rest, Some([]), h);
      FilterIsPlain(cfg, rest, None, h);
      if comment.Some? {
        FilterIsPlain(cfg, rest, None, Hear(cfg, h, comment.value));
      }
    }
  }

  lemma NormalFormIsPlain(cfg: Setup, line: string, h: Heard)
    ensures forall c :: c in Normalized(cfg, line, h).text ==> Plain(c)
  {
    var s := SkipBlanks(line);
    if s != [] {
      FilterIsPlain(cfg, if s[0] == '/' then s[1..] else s, None, h);
    }
  }

  lemma {:induction false} PlainIsKept(cfg: Setup, s: string, h: Heard)
    requires forall c :: c in s ==> Plain(c)
    ensures Filter(cfg, s, None, h) == Filtered(s, h)
  {
    if s != [] {
      PlainIsKept(cfg, s[1..], h);
      assert s[0] in s;
      assert [s[0]] + s[1..] == s;
    }
  }

  /** Normalising a normal form changes nothing, except that a leading slash goes once more. */
  lemma NormalizeAgain(cfg: Setup, line: string, h: Heard, again: Heard)
    ensures var n := Normalized(cfg, line, h).text;
            Normalized(cfg, n, again).text == n <==> n == [] || n[0] != '/'
  {
    var n := Normalized(cfg, line, h).text;
    NormalFormIsPlain(cfg, line, h);
    if n != [] {
      assert n[0] in n;
      assert SkipBlanks(n) == n;
      PlainIsKept(cfg, if n[0] == '/' then n[1..] else n, again);
    }
  }

  /** A second leading slash survives: the first pass leaves one, the second pass takes it. */
  lemma TwoSlashes(cfg: Setup, h: Heard)
    requires !cfg.blockDelete
    ensures Normalized(cfg, "//G0", h).text == "/G0" && Normalized(cfg, "/G0", h).text == "G0"
  {
    hide Filter;
    PlainIsKept(cfg, "/G0", h);
    PlainIsKept(cfg, "G0", h);
    assert "//G0"[1..] == "/G0" && "/G0"[1..] == "G0";
  }

  /** The text behind the last left parenthesis, or behind `seen` if there is none. */
  function Innermost(seen: string, s: string): (r: string)
    decreases |s|
  {
    if s == [] then seen
    else if s[0] == '(' then Innermost([], s[1..])
    else Innermost(seen + [s[0]], s[1..])
  }

  lemma {:induction false} InnermostIs(seen: string, s: string) returns (before: string)
    requires '(' !in seen
    ensures seen + s == before + Innermost(seen, s) && '(' !in Innermost(seen, s)
    ensures before != [] ==> before[|before| - 1] == '('
    decreases |s|
  {
    if s == [] {
      before := [];
    } else if s[0] == '(' {
      var inside := InnermostIs([], s[1..]);
      before := seen + ['('] + inside;
      assert seen + s == seen + ['('] + ([] + s[1..]);
    } else {
      before := InnermostIs(seen + [s[0]], s[1..]);
      assert seen + [s[0]] + s[1..] == seen + s;
    }
  }

  /** A comment changes nothing but what its handler hears: the text behind its last left parenthesis. It may stand
      anywhere in a line, as long as the text in front holds no comment, and there may be more of them behind. */
  lemma {:induction false} CommentIsTransparent(cfg: Setup, a: string, inner: string, b: string, h: Heard)
    requires '(' !in a && ';' !in a && ')' !in inner
    ensures var now := if cfg.skipBlocks then h else Hear(cfg, h, Innermost([], inner));
            var f := Filter(cfg, b, None, now);
            Filter(cfg, a + ("(" + inner + ")" + b), None, h) == Filtered(Filter(cfg, a, None, h).text + f.text, f.heard)
  {
    hide Filter, Hear, Innermost;
    var rest := "(" + inner + ")" + b;
    var f := Filter(cfg, b, None, if cfg.skipBlocks then h else Hear(cfg, h, Innermost([], inner)));
    if a == [] {
      FilterUnfold(cfg, rest, None, h);
      assert a + rest == rest && rest[1..] == inner + ")" + b && rest[0] == '(';
      FilterNothing(cfg, None, h);
      CommentRead(cfg, [], inner, b, h);
      assert [] + f.text == f.text;
    } else {
      assert a[0] in a && forall c :: c in a[1..] ==> c in a;
      CommentIsTransparent(cfg, a[1..], inner, b, h);
      PrefixStep(cfg, a[0], a[1..], rest, h, f);
      assert [a[0]] + a[1..] == a;
    }
  }

  /** One character of the text in front of a comment. */
  lemma PrefixStep(cfg: Setup, c: char, a: string, rest: string, h: Heard, f: Filtered)
    requires c != '(' && c != ';'
    requires Filter(cfg, a + rest, None, h) == Filtered(Filter(cfg, a, None, h).text + f.text, f.heard)
    ensures Filter(cfg, [c] + a + rest, None, h) == Filtered(Filter(cfg, [c] + a, None, h).text + f.text, f.heard)
  {
    hide Filter;
    FilterUnfold(cfg, [c] + a + rest, None, h);
    FilterUnfold(cfg, [c] + a, None, h);
    assert ([c] + a + rest)[1..] == a + rest && ([c] + a)[1..] == a;
    var g := Filter(cfg, a, None, h);
    assert [Caps(c)] + (g.text + f.text) == [Caps(c)] + g.text + f.text;
  }

  lemma {:induction false} CommentRead(cfg: Setup, seen: string, inner: string, b: string, h: Heard)
    requires ')' !in inner
    ensures Filter(cfg, inner + ")" + b, Some(seen), h)
            == Filter(cfg, b, None, if cfg.skipBlocks then h else Hear(cfg, h, Innermost(seen, inner)))
    decreases |inner|
  {
    hide Filter, Hear;
    var s := inner + ")" + b;
    FilterUnfold(cfg, s, Some(seen), h);
    if inner == [] {
      assert s[1..] == b && s[0] == ')';
    } else {
      assert s[1..] == inner[1..] + ")" + b && s[0] == inner[0] && inner[0] in inner;
      assert forall c :: c in inner[1..] ==> c in inner;
      CommentRead(cfg, if inner[0] == '(' then [] else seen + [inner[0]], inner[1..], b, h);
    }
  }
}
