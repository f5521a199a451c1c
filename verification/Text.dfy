/** The string operations of the modelled code: trimming, splitting into lines, searching and joining. */
module Text {
  import opened Wrappers

  // ---------- Trimming ----------

  /** White space and line terminators, as removed by ECMAScript's String.prototype.trim. */
  predicate IsSpace(c: char) {
    || '\t' <= c <= '\r'
    || c == ' '
    || c == '\U{00A0}' || c == '\U{1680}'
    || '\U{2000}' <= c <= '\U{200A}'
    || c == '\U{2028}' || c == '\U{2029}' || c == '\U{202F}' || c == '\U{205F}'
    || c == '\U{3000}' || c == '\U{FEFF}'
  }

  function TrimStart(s: string): string {
    if s != [] && IsSpace(s[0]) then TrimStart(s[1..]) else s
  }

  function TrimEnd(s: string): string {
    if s != [] && IsSpace(s[|s| - 1]) then TrimEnd(s[..|s| - 1]) else s
  }

  function Trim(s: string): string {
    TrimEnd(TrimStart(s))
  }

  /** The white space characters, by code point. */
  const SPACES: set<int> :=
    {0x09, 0x0A, 0x0B, 0x0C, 0x0D, 0x20, 0xA0, 0x1680, 0x2000, 0x2001, 0x2002, 0x2003, 0x2004, 0x2005, 0x2006, 0x2007,
     0x2008, 0x2009, 0x200A, 0x2028, 0x2029, 0x202F, 0x205F, 0x3000, 0xFEFF}

  lemma SpacesAre(c: char)
    ensures IsSpace(c) <==> c as int in SPACES
  {
  }

  predicate AllSpaces(s: string) {
    forall c :: c in s ==> c as int in SPACES
  }

  /** Text with no white space at either end. */
  predicate IsTrimmed(s: string) {
    s == [] || (s[0] as int !in SPACES && s[|s| - 1] as int !in SPACES)
  }

  lemma {:induction false} TrimStartCuts(s: string) returns (front: string)
    ensures s == front + TrimStart(s) && AllSpaces(front)
    ensures TrimStart(s) == [] || TrimStart(s)[0] as int !in SPACES
  {
    front := [];
    if s != [] {
      SpacesAre(s[0]);
      if IsSpace(s[0]) {
        front := TrimStartCuts(s[1..]);
        front := [s[0]] + front;
      }
    }
  }

  lemma {:induction false} TrimEndCuts(s: string) returns (back: string)
    ensures s == TrimEnd(s) + back && AllSpaces(back)
    ensures TrimEnd(s) == [] || TrimEnd(s)[|TrimEnd(s)| - 1] as int !in SPACES
  {
    back := [];
    if s != [] {
      SpacesAre(s[|s| - 1]);
      if IsSpace(s[|s| - 1]) {
        back := TrimEndCuts(s[..|s| - 1]);
        back := back + [s[|s| - 1]];
      }
    }
  }

  /** Trimming takes white space off both ends, and all of it. */
  lemma TrimCuts(s: string) returns (front: string, back: string)
    ensures s == front + Trim(s) + back && AllSpaces(front) && AllSpaces(back) && IsTrimmed(Trim(s))
  {
    front := TrimStartCuts(s);
    back := TrimEndCuts(TrimStart(s));
    if Trim(s) != [] {
      assert TrimStart(s)[0] == Trim(s)[0];
    }
  }

  lemma OutsideIsSpace(s: string, front: string, middle: string, back: string, i: nat)
    requires s == front + middle + back && AllSpaces(front) && AllSpaces(back) && i < |s|
    ensures s[i] as int !in SPACES ==> |front| <= i < |front| + |middle|
  {
    if i < |front| {
      assert s[i] == front[i] && front[i] in front;
    } else if i >= |front| + |middle| {
      assert s[i] == back[i - |front| - |middle|] && s[i] in back;
    }
  }

  lemma SameCut(s: string, f1: string, m1: string, b1: string, f2: string, m2: string, b2: string)
    requires s == f1 + m1 + b1 && AllSpaces(f1) && AllSpaces(b1) && IsTrimmed(m1) && m1 != []
    requires s == f2 + m2 + b2 && AllSpaces(f2) && AllSpaces(b2)
    ensures |f2| <= |f1| && |f1| + |m1| <= |f2| + |m2|
  {
    hide AllSpaces;
    assert s[|f1|] == m1[0] && s[|f1| + |m1| - 1] == m1[|m1| - 1];
    OutsideIsSpace(s, f2, m2, b2, |f1|);
    OutsideIsSpace(s, f2, m2, b2, |f1| + |m1| - 1);
  }

  /** Only one text is what is left: whatever stands between white space, and has none at its own ends. */
  lemma TrimIs(s: string, front: string, middle: string, back: string)
    requires s == front + middle + back && AllSpaces(front) && AllSpaces(back) && IsTrimmed(middle)
    ensures Trim(s) == middle
  {
    var f, b := TrimCuts(s);
    var t := Trim(s);
    hide AllSpaces, Trim, IsTrimmed;
    if middle != [] {
      SameCut(s, front, middle, back, f, t, b);
    }
    if t != [] {
      SameCut(s, f, t, b, front, middle, back);
    }
    if t != [] && middle != [] {
      assert t == s[|f|..|f| + |t|] && middle == s[|front|..|front| + |middle|];
    }
  }

  // ---------- Lines ----------

  /** Puts a character before the first line. */
  function PrependToFirst(c: char, lines: seq<string>): (r: seq<string>)
    requires |lines| >= 1
    ensures |r| == |lines|
  {
    [[c] + lines[0]] + lines[1..]
  }

  /** s.split('\n'): always at least one piece. */
  function Lines(s: string): (r: seq<string>)
    ensures |r| >= 1
  {
    if s == [] then [[]]
    else if s[0] == '\n' then [[]] + Lines(s[1..])
    else PrependToFirst(s[0], Lines(s[1..]))
  }

  lemma PrependToFirstOfConcat(c: char, a: seq<string>, b: seq<string>)
    requires |a| >= 1
    ensures PrependToFirst(c, a + b) == PrependToFirst(c, a) + b
  {
    assert (a + b)[1..] == a[1..] + b;
  }

  /** Splitting text that was joined by a newline gives the pieces of both halves. */
  lemma {:induction false} LinesOfJoined(a: string, b: string)
    ensures Lines(a + ['\n'] + b) == Lines(a) + Lines(b)
  {
    var whole := a + ['\n'] + b;
    if a == [] {
      assert whole[0] == '\n' && whole[1..] == b;
    } else {
      LinesOfJoined(a[1..], b);
      assert whole[0] == a[0] && whole[1..] == a[1..] + ['\n'] + b;
      if a[0] == '\n' {
        assert [[]] + (Lines(a[1..]) + Lines(b)) == [[]] + Lines(a[1..]) + Lines(b);
      } else {
        PrependToFirstOfConcat(a[0], Lines(a[1..]), Lines(b));
      }
    }
  }

  /** Text without a newline is one line. */
  lemma {:induction false} LinesOfOneLine(s: string)
    requires '\n' !in s
    ensures Lines(s) == [s]
  {
    if s != [] {
      LinesOfOneLine(s[1..]);
      assert [s[0]] + s[1..] == s;
    }
  }

  // ---------- Joining ----------

  /** parts.join(sep) */
  function Join(parts: seq<string>, sep: string): string {
    if |parts| == 0 then []
    else if |parts| == 1 then parts[0]
    else parts[0] + sep + Join(parts[1..], sep)
  }

  /** parts.join(''), which undoes cutting a string into pieces. */
  function Concat(parts: seq<string>): string {
    if parts == [] then [] else parts[0] + Concat(parts[1..])
  }

  /** Joining newline-free pieces with newlines and splitting again gives the pieces back. */
  lemma {:induction false} LinesOfJoin(parts: seq<string>)
    requires |parts| >= 1
    requires forall p :: p in parts ==> '\n' !in p
    ensures Lines(Join(parts, "\n")) == parts
  {
    LinesOfOneLine(parts[0]);
    if |parts| > 1 {
      LinesOfJoin(parts[1..]);
      LinesOfJoined(parts[0], Join(parts[1..], "\n"));
    }
  }

  // ---------- Searching ----------

  /** s.lastIndexOf(c), with None for -1. */
  function LastIndexOf(s: string, c: char): (r: Option<nat>)
    ensures r == None <==> c !in s
    ensures r.Some? ==> r.value < |s| && s[r.value] == c && c !in s[r.value + 1..]
  {
    if s == [] then None
    else if s[|s| - 1] == c then Some(|s| - 1)
    else LastIndexOf(s[..|s| - 1], c)
  }

  /** An occurrence with none after it is the last one. */
  lemma {:induction false} LastIndexIs(s: string, c: char, i: nat)
    requires i < |s| && s[i] == c && c !in s[i + 1..]
    ensures LastIndexOf(s, c) == Some(i)
  {
    if i + 1 < |s| {
      assert s[i + 1..][|s| - i - 2] == s[|s| - 1];
      assert s[..|s| - 1][i + 1..] == s[i + 1..][..|s| - i - 2];
      LastIndexIs(s[..|s| - 1], c, i);
    }
  }

  /** s.includes(t) */
  predicate Contains(s: string, t: string) {
    exists i :: 0 <= i <= |s| && t <= s[i..]
  }

  /** That is, the text stands somewhere in it. */
  lemma ContainsIff(s: string, t: string)
    ensures Contains(s, t) <==> exists front: string, back: string :: s == front + t + back
  {
    if Contains(s, t) {
      var i :| 0 <= i <= |s| && t <= s[i..];
      assert s == s[..i] + t + s[i + |t|..];
    }
    if front: string, back: string :| s == front + t + back {
      assert s[|front|..] == t + back;
    }
  }
}
