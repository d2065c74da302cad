/** Checking a stored metric definition: the comment stripper and the single-query
    test of emctl/repo/metrics.py. */
module MetricText {
  import opened Text

  // ----- replacing the matches of the two comment expressions

  predicate Opens(s: string, i: int) {
    0 <= i && i + 1 < |s| && s[i] == '/' && s[i + 1] == '*'
  }

  predicate Closes(s: string, i: int) {
    0 <= i && i + 1 < |s| && s[i] == '*' && s[i + 1] == '/'
  }

  predicate Dashes(s: string, i: int) {
    0 <= i && i + 1 < |s| && s[i] == '-' && s[i + 1] == '-'
  }

  // The nearest "*/" at k or later.
  function NextClose(s: string, k: nat): (r: nat)
    requires k <= |s|
    ensures k <= r <= |s|
    ensures r < |s| ==> Closes(s, r)
    ensures forall j | k <= j < r :: !Closes(s, j)
    decreases |s| - k
  {
    if k == |s| || Closes(s, k) then k else NextClose(s, k + 1)
  }

  // The leftmost block comment: where it starts and ends; |s| twice if there is none.
  function NextBlock(s: string, i: nat): (r: (nat, nat))
    requires i <= |s|
    ensures r.0 <= |s|
    ensures r.0 < |s| ==>
              && i <= r.0 && r.0 + 4 <= r.1 <= |s|
              && Opens(s, r.0) && Closes(s, r.1 - 2)
              && forall j | r.0 + 2 <= j < r.1 - 2 :: !Closes(s, j)
    ensures forall a, b | i <= a < r.0 && Opens(s, a) && a + 2 <= b :: !Closes(s, b)
    decreases |s| - i
  {
    if i == |s| then (|s|, |s|)
    else if Opens(s, i) && NextClose(s, i + 2) < |s| then (i, NextClose(s, i + 2) + 2)
    else NextBlock(s, i + 1)
  }

  function LineEnd(s: string, k: nat): (r: nat)
    requires k <= |s|
    ensures k <= r <= |s| && (r < |s| ==> s[r] == '\n')
    ensures forall j | k <= j < r :: s[j] != '\n'
    decreases |s| - k
  {
    if k == |s| || s[k] == '\n' then k else LineEnd(s, k + 1)
  }

  function NextDashes(s: string, i: nat): (r: nat)
    requires i <= |s|
    ensures i <= r <= |s| && (r < |s| ==> Dashes(s, r))
    ensures forall j | i <= j < r :: !Dashes(s, j)
    decreases |s| - i
  {
    if i == |s| || Dashes(s, i) then i else NextDashes(s, i + 1)
  }

  function StripBlocks(s: string): string
    decreases |s|
  {
    var (i, j) := NextBlock(s, 0);
    if i == |s| then s else s[..i] + " " + StripBlocks(s[j..])
  }

  function StripLines(s: string): string
    decreases |s|
  {
    var i := NextDashes(s, 0);
    if i == |s| then s else s[..i] + " " + StripLines(s[LineEnd(s, i + 2)..])
  }

  function StripComments(s: string): string {
    StripLines(StripBlocks(s))
  }

  // ----- the result is free of comments

  ghost predicate NoBlock(s: string) {
    forall a, b | Opens(s, a) && a + 2 <= b :: !Closes(s, b)
  }

  ghost predicate NoDashes(s: string) {
    forall a :: !Dashes(s, a)
  }

  // A block comment free text in front of a space and a text.
  lemma JoinNoBlock(pre: string, rest: string)
    requires NoBlock(pre) && NoBlock(rest)
    requires (exists a :: Opens(pre, a)) ==> forall b :: !Closes(rest, b)
    ensures NoBlock(pre + " " + rest)
  {
    var t := pre + " " + rest;
    forall a, b | Opens(t, a) && a + 2 <= b ensures !Closes(t, b) {
      JoinLooksAt(pre, rest, a);
      JoinLooksAt(pre, rest, b);
    }
  }

  lemma JoinLooksAt(pre: string, rest: string, k: int)
    ensures var t := pre + " " + rest;
            && (Opens(t, k) <==> if k < |pre| then Opens(pre, k) else Opens(rest, k - |pre| - 1))
            && (Closes(t, k) <==> if k < |pre| then Closes(pre, k) else Closes(rest, k - |pre| - 1))
            && (Dashes(t, k) <==> if k < |pre| then Dashes(pre, k) else Dashes(rest, k - |pre| - 1))
  {
  }

  lemma SliceLooksAt(s: string, i: nat, j: nat, k: int)
    requires i <= j <= |s|
    ensures Opens(s[i..j], k) <==> 0 <= k && k + i + 1 < j && Opens(s, k + i)
    ensures Closes(s[i..j], k) <==> 0 <= k && k + i + 1 < j && Closes(s, k + i)
    ensures Dashes(s[i..j], k) <==> 0 <= k && k + i + 1 < j && Dashes(s, k + i)
  {
  }

  lemma {:induction false} BlocksAreGone(s: string)
    ensures NoBlock(StripBlocks(s))
    decreases |s|
  {
    var (i, j) := NextBlock(s, 0);
    if i == |s| {
      assert forall a | Opens(s, a) :: 0 <= a < i;
    } else {
      BlocksAreGone(s[j..]);
      var pre := s[0..i];
      forall a ensures !Opens(pre, a) {
        SliceLooksAt(s, 0, i, a);
        assert Closes(s, j - 2);
      }
      JoinNoBlock(pre, StripBlocks(s[j..]));
      assert s[..i] == pre;
    }
  }

  lemma {:induction false} StripLinesKeepsCloses(s: string, b: int)
    requires Closes(StripLines(s), b)
    ensures exists c :: Closes(s, c)
    decreases |s|
  {
    var i := NextDashes(s, 0);
    if i == |s| {
      assert Closes(s, b);
    } else {
      var j := LineEnd(s, i + 2);
      var rest := StripLines(s[j..|s|]);
      assert s[..i] == s[0..i] && s[j..] == s[j..|s|];
      JoinLooksAt(s[0..i], rest, b);
      if b < i {
        SliceLooksAt(s, 0, i, b);
      } else {
        StripLinesKeepsCloses(s[j..|s|], b - i - 1);
        var c :| Closes(s[j..|s|], c);
        SliceLooksAt(s, j, |s|, c);
        assert Closes(s, c + j);
      }
    }
  }

  lemma {:induction false} LinesAreGone(s: string)
    requires NoBlock(s)
    ensures NoDashes(StripLines(s)) && NoBlock(StripLines(s))
    decreases |s|
  {
    var i := NextDashes(s, 0);
    if i == |s| {
      assert forall a | Dashes(s, a) :: 0 <= a < i;
    } else {
      var j := LineEnd(s, i + 2);
      var pre, tail := s[0..i], s[j..|s|];
      var rest := StripLines(tail);
      assert s[..i] == pre && s[j..] == tail;
      forall a, b | Opens(tail, a) && a + 2 <= b ensures !Closes(tail, b) {
        SliceLooksAt(s, j, |s|, a);
        SliceLooksAt(s, j, |s|, b);
        assert Opens(s, a + j);
      }
      LinesAreGone(tail);
      forall a, b | Opens(pre, a) && a + 2 <= b ensures !Closes(pre, b) {
        SliceLooksAt(s, 0, i, a);
        SliceLooksAt(s, 0, i, b);
      }
      forall a, b | Opens(pre, a) ensures !Closes(rest, b) {
        SliceLooksAt(s, 0, i, a);
        if Closes(rest, b) {
          StripLinesKeepsCloses(tail, b);
          var c :| Closes(tail, c);
          SliceLooksAt(s, j, |s|, c);
        }
      }
      JoinNoBlock(pre, rest);
      forall a ensures !Dashes(pre + " " + rest, a) {
        JoinLooksAt(pre, rest, a);
        SliceLooksAt(s, 0, i, a);
      }
    }
  }

  // Without comments there is nothing to strip.
  lemma NothingToStrip(s: string)
    ensures NoBlock(s) ==> StripBlocks(s) == s
    ensures NoDashes(s) ==> StripLines(s) == s
  {
    var (i, j) := NextBlock(s, 0);
    assert i < |s| ==> Opens(s, i) && Closes(s, j - 2);
    var d := NextDashes(s, 0);
    assert d < |s| ==> Dashes(s, d);
  }

  /** Stripping yields a normal form: no line comment, no block comment, and a second
      pass changes nothing. */
  lemma StrippedIsNormal(s: string)
    ensures var t := StripComments(s);
            NoDashes(t) && NoBlock(t) && StripComments(t) == t
  {
    BlocksAreGone(s);
    LinesAreGone(StripBlocks(s));
    NothingToStrip(StripComments(s));
  }

  // ----- and nothing else is lost

  /** A text whose first comment is `/*` body `*/` loses exactly that comment, to a
      space, before the rest is stripped. */
  lemma FirstBlockGoes(pre: string, body: string, rest: string)
    requires forall a | 0 <= a < |pre| :: !Opens(pre + "/", a)
    requires forall b | 0 <= b < |body| :: !Closes(body + "*", b)
    ensures StripBlocks(pre + "/*" + body + "*/" + rest) == pre + " " + StripBlocks(rest)
  {
    var s := pre + "/*" + body + "*/" + rest;
    var i, j := |pre|, |pre| + 4 + |body|;
    forall a | 0 <= a < i ensures !Opens(s, a) {
      assert !Opens(pre + "/", a);
    }
    assert s[i + 2..j - 1] == body + "*";
    forall b | i + 2 <= b < j - 2 ensures !Closes(s, b) {
      assert !Closes(body + "*", b - i - 2);
    }
    assert Opens(s, i) && Closes(s, j - 2);
    var m := NextBlock(s, 0);
    assert m.0 == i;
    assert m.1 == j;
    assert s[..i] == pre && s[j..] == rest;
  }

  lemma FirstLineGoes(pre: string, body: string, rest: string)
    requires forall a | 0 <= a < |pre| :: !Dashes(pre + "-", a)
    requires '\n' !in body && (rest == "" || rest[0] == '\n')
    ensures StripLines(pre + "--" + body + rest) == pre + " " + StripLines(rest)
  {
    var s := pre + "--" + body + rest;
    LineLayout(pre, body, rest);
    hide Dashes, NextDashes, LineEnd;
    assert NextDashes(s, 0) == |pre|;
    assert LineEnd(s, |pre| + 2) == |pre| + 2 + |body|;
  }

  lemma LineLayout(pre: string, body: string, rest: string)
    requires forall a | 0 <= a < |pre| :: !Dashes(pre + "-", a)
    requires '\n' !in body
    ensures var s, i, j := pre + "--" + body + rest, |pre|, |pre| + 2 + |body|;
            && s[..i] == pre && s[j..] == rest && Dashes(s, i)
            && (forall a | 0 <= a < i :: !Dashes(s, a)) && forall k | i + 2 <= k < j :: s[k] != '\n'
  {
    var s, i := pre + "--" + body + rest, |pre|;
    forall a | 0 <= a < i ensures !Dashes(s, a) {
      assert !Dashes(pre + "-", a);
    }
    assert s[i + 2..i + 2 + |body|] == body;
  }

  /** Block comments go first: the first one of a text goes even where a line comment
      would have hidden it, and only what is left is searched for line comments. */
  lemma BlocksGoBeforeLines(pre: string, body: string, rest: string)
    requires forall a | 0 <= a < |pre| :: !Opens(pre + "/", a)
    requires forall b | 0 <= b < |body| :: !Closes(body + "*", b)
    ensures StripComments(pre + "/*" + body + "*/" + rest) == StripLines(pre + " " + StripBlocks(rest))
  {
    FirstBlockGoes(pre, body, rest);
    hide StripBlocks, StripLines;
  }

  // ----- the validator

  datatype Verdict = Accepted | EmptyDefinition | SeveralStatements | NotARead

  function Body(definition: string): string {
    RStrip(RStripChar(Strip(StripComments(definition)), ';'))
  }

  // What stands before the first white space.
  function FirstWord(s: string): string {
    if s == "" || IsSpace(s[0]) then "" else [s[0]] + FirstWord(s[1..])
  }

  function Lower(s: string): string {
    if s == "" then ""
    else [if 'A' <= s[0] <= 'Z' then ((s[0] as int) + 32) as char else s[0]] + Lower(s[1..])
  }

  predicate ReadQuery(core: string) {
    Lower(FirstWord(core)) == "select" || Lower(FirstWord(core)) == "with"
  }

  function Validate(definition: string): Verdict {
    var body := Body(definition);
    if body == "" then EmptyDefinition
    else if ';' in body then SeveralStatements
    else if ReadQuery(body) then Accepted
    else NotARead
  }

  function Semis(n: nat): string {
    seq(n, _ => ';')
  }

  // Blank, core, blank, any number of semicolons, blank.
  ghost predicate Reads(t: string, a: string, core: string, b: string, n: nat, c: string) {
    && Blank(a) && Blank(b) && Blank(c) && Trimmed(core) && core != "" && ';' !in core
    && t == a + core + b + Semis(n) + c
  }

  // The core is determined by the text.
  lemma CoreIsBody(definition: string, a: string, core: string, b: string, n: nat, c: string)
    requires Reads(StripComments(definition), a, core, b, n, c)
    ensures Body(definition) == core
  {
    var t := StripComments(definition);
    hide StripComments;
    hide Strip, RStrip, RStripChar, IsSpace;
    if n == 0 {
      CoreAlone(core);
      assert t == a + core + (b + c);
      StripIs(a, core, b + c);
    } else {
      var m := core + b + Semis(n);
      CoreAndSemis(core, b, n);
      assert t == a + m + c;
      StripIs(a, m, c);
    }
  }

  lemma CoreAlone(core: string)
    requires Trimmed(core) && core != "" && ';' !in core
    ensures RStrip(RStripChar(core, ';')) == core
  {
    assert core + "" == core;
    RStripCharIs(core, "", ';');
    RStripIs(core, "");
  }

  lemma CoreAndSemis(core: string, b: string, n: nat)
    requires Trimmed(core) && core != "" && ';' !in core && Blank(b) && n > 0
    ensures Trimmed(core + b + Semis(n))
    ensures RStrip(RStripChar(core + b + Semis(n), ';')) == core
  {
    var u := core + b;
    assert u[|u| - 1] == if b == "" then core[|core| - 1] else b[|b| - 1];
    RStripCharIs(u, Semis(n), ';');
    RStripIs(core, b);
  }

  lemma UnwrapSplits(u: string) returns (b: string, n: nat)
    requires Trimmed(u)
    ensures var core := RStrip(RStripChar(u, ';'));
            && u == core + b + Semis(n) && Blank(b)
            && Trimmed(core) && (core == "" ==> b == "")
  {
    var v := RStripChar(u, ';');
    var core := RStrip(v);
    b, n := v[|core|..], |u| - |v|;
    assert u == v + u[|v|..];
    assert u[|v|..] == Semis(n);
    assert v == core + b;
    if v != "" {
      assert v[0] == u[0];
      assert core == "" ==> b == v;
      assert core != "" ==> core[0] == v[0];
    }
  }

  lemma BodyIsCore(definition: string) returns (a: string, b: string, n: nat, c: string)
    requires Body(definition) != "" && ';' !in Body(definition)
    ensures Reads(StripComments(definition), a, Body(definition), b, n, c)
  {
    hide StripComments, Strip, RStrip, RStripChar, Semis, Blank;
    var u := Strip(StripComments(definition));
    a, c := StripSplits(StripComments(definition));
    b, n := UnwrapSplits(u);
    RegroupRead(a, Body(definition), b, Semis(n), c);
  }

  lemma RegroupRead(a: string, core: string, b: string, semis: string, c: string)
    ensures a + (core + b + semis) + c == a + core + b + semis + c
  {
  }

  // The word letter by letter, each in either case.
  ghost predicate Spells(w: string, lower: string, upper: string)
    requires |lower| == |upper|
  {
    |w| == |lower| && forall i | 0 <= i < |w| :: w[i] == lower[i] || w[i] == upper[i]
  }

  // A word, and nothing or white space after it.
  ghost predicate Heads(core: string, w: string, tail: string) {
    core == w + tail && (tail == "" || IsSpace(tail[0]))
  }

  // A read query: its first word is SELECT or WITH in any case.
  ghost predicate IsRead(core: string, w: string, tail: string) {
    Heads(core, w, tail) && (Spells(w, "select", "SELECT") || Spells(w, "with", "WITH"))
  }

  lemma {:induction false} LowerAt(s: string)
    ensures |Lower(s)| == |s|
    ensures forall i | 0 <= i < |s| ::
              Lower(s)[i] == if 'A' <= s[i] <= 'Z' then ((s[i] as int) + 32) as char else s[i]
  {
    if s != "" { LowerAt(s[1..]); }
  }

  lemma LowerSpells(w: string)
    ensures Lower(w) == "select" <==> Spells(w, "select", "SELECT")
    ensures Lower(w) == "with" <==> Spells(w, "with", "WITH")
  {
    LowerAt(w);
    if Spells(w, "select", "SELECT") { assert Lower(w) == "select"; }
    if Spells(w, "with", "WITH") { assert Lower(w) == "with"; }
    if Lower(w) == "select" {
      forall i | 0 <= i < |w| ensures w[i] == "select"[i] || w[i] == "SELECT"[i] { assert Lower(w)[i] == "select"[i]; }
    }
    if Lower(w) == "with" {
      forall i | 0 <= i < |w| ensures w[i] == "with"[i] || w[i] == "WITH"[i] { assert Lower(w)[i] == "with"[i]; }
    }
  }

  lemma {:induction false} FirstWordSplits(core: string)
    ensures |FirstWord(core)| <= |core| && Heads(core, FirstWord(core), core[|FirstWord(core)|..])
  {
    if core != "" && !IsSpace(core[0]) {
      FirstWordSplits(core[1..]);
      var w := FirstWord(core);
      assert core[1..][|w| - 1..] == core[|w|..];
      assert core == [core[0]] + core[1..];
    }
  }

  lemma {:induction false} FirstWordIs(w: string, tail: string)
    requires (forall i | 0 <= i < |w| :: !IsSpace(w[i])) && (tail == "" || IsSpace(tail[0]))
    ensures FirstWord(w + tail) == w
  {
    if w == "" {
      assert w + tail == tail;
    } else {
      assert (w + tail)[1..] == w[1..] + tail;
      FirstWordIs(w[1..], tail);
    }
  }

  lemma SpelledIsWord(w: string)
    requires Spells(w, "select", "SELECT") || Spells(w, "with", "WITH")
    ensures forall i | 0 <= i < |w| :: !IsSpace(w[i])
  {
  }

  lemma ReadQueryIff(core: string)
    ensures ReadQuery(core) <==> exists w, tail :: IsRead(core, w, tail)
  {
    FirstWordSplits(core);
    LowerSpells(FirstWord(core));
    if ReadQuery(core) { assert IsRead(core, FirstWord(core), core[|FirstWord(core)|..]); }
    hide Lower, FirstWord, Spells;
    if w, tail :| IsRead(core, w, tail) {
      SpelledIsWord(w);
      FirstWordIs(w, tail);
      LowerSpells(w);
    }
  }

  /** A definition is accepted exactly when its comment-free text is one query: blank,
      a core without `;`, blank, semicolons, blank, the core's first word being
      SELECT or WITH in any case. */
  lemma AcceptedIff(definition: string)
    ensures Validate(definition) == Accepted <==>
            exists a, core, b, n, c, w, tail ::
              Reads(StripComments(definition), a, core, b, n, c) && IsRead(core, w, tail)
  {
    hide StripComments, Strip, RStrip, RStripChar, Reads, Body, ReadQuery, IsRead;
    var body := Body(definition);
    ReadQueryIff(body);
    if Validate(definition) == Accepted {
      var a, b, n, c := BodyIsCore(definition);
      var w, tail :| IsRead(body, w, tail);
    }
    if a, core, b, n, c, w, tail :|
      Reads(StripComments(definition), a, core, b, n, c) && IsRead(core, w, tail)
    {
      CoreIsBody(definition, a, core, b, n, c);
      CoreIsThere(StripComments(definition), a, core, b, n, c);
    }
  }

  lemma CoreIsThere(t: string, a: string, core: string, b: string, n: nat, c: string)
    requires Reads(t, a, core, b, n, c)
    ensures core != "" && ';' !in core
  {
  }

  /** It is called no read exactly when it is one query whose first word is another. */
  lemma NotAReadIff(definition: string)
    ensures Validate(definition) == NotARead <==>
            exists a, core, b, n, c ::
              Reads(StripComments(definition), a, core, b, n, c) && forall w, tail :: !IsRead(core, w, tail)
  {
    hide StripComments, Strip, RStrip, RStripChar, Reads, Body, ReadQuery, IsRead;
    var body := Body(definition);
    ReadQueryIff(body);
    if Validate(definition) == NotARead {
      var a, b, n, c := BodyIsCore(definition);
    }
    if a, core, b, n, c :|
      Reads(StripComments(definition), a, core, b, n, c) && forall w, tail :: !IsRead(core, w, tail)
    {
      CoreIsBody(definition, a, core, b, n, c);
      CoreIsThere(StripComments(definition), a, core, b, n, c);
    }
  }

  /** It is called empty exactly when nothing but blanks around semicolons is left. */
  lemma EmptyIff(definition: string)
    ensures Validate(definition) == EmptyDefinition <==>
            exists a, n, c :: Blank(a) && Blank(c) && StripComments(definition) == a + Semis(n) + c
  {
    var t := StripComments(definition);
    hide StripComments, Strip, RStrip, RStripChar, Blank;
    if Body(definition) == "" {
      var a, c := StripSplits(t);
      var b, n := UnwrapSplits(Strip(t));
      assert "" + "" + Semis(n) == Semis(n);
    }
    forall a, n, c | Blank(a) && Blank(c) && t == a + Semis(n) + c ensures Body(definition) == "" {
      BodyOfSemis(definition, a, n, c);
    }
  }

  /** And several statements exactly when no choice of blanks and trailing semicolons
      leaves a core, or nothing, without one. */
  lemma SeveralIff(definition: string)
    ensures Validate(definition) == SeveralStatements <==>
            && (forall a, core, b, n, c :: !Reads(StripComments(definition), a, core, b, n, c))
            && forall a, n, c | Blank(a) && Blank(c) :: StripComments(definition) != a + Semis(n) + c
  {
    EmptyIff(definition);
    hide StripComments, Strip, RStrip, RStripChar, Reads, Body, ReadQuery, Semis, Blank;
    if Validate(definition) == SeveralStatements {
      forall a, core, b, n, c ensures !Reads(StripComments(definition), a, core, b, n, c) {
        if Reads(StripComments(definition), a, core, b, n, c) {
          CoreIsBody(definition, a, core, b, n, c);
          CoreIsThere(StripComments(definition), a, core, b, n, c);
        }
      }
    } else if Validate(definition) != EmptyDefinition {
      var a, b, n, c := BodyIsCore(definition);
    }
  }

  lemma BodyOfSemis(definition: string, a: string, n: nat, c: string)
    requires Blank(a) && Blank(c) && StripComments(definition) == a + Semis(n) + c
    ensures Body(definition) == ""
  {
    hide StripComments;
    StripIs(a, Semis(n), c);
    assert "" + Semis(n) == Semis(n);
    RStripCharIs("", Semis(n), ';');
  }
}
