/** The process-run references of obligations, and which runs the burial's text search finds in them. */
module RunReferences {
  import opened Results

  // ---- which process run a reference names --------------------------------------------

  function Decimal(n: nat): (s: string)
    ensures s != [] && forall i | 0 <= i < |s| :: '0' <= s[i] <= '9'
  {
    if n < 10 then [('0' as int + n) as char] else Decimal(n / 10) + [('0' as int + n % 10) as char]
  }

  lemma DecimalWidth(n: nat)
    ensures |Decimal(n)| == 1 <==> n < 10
  {
  }

  lemma {:induction false} DecimalInjective(a: nat, b: nat)
    requires Decimal(a) == Decimal(b)
    ensures a == b
  {
    DecimalWidth(a);
    DecimalWidth(b);
    if a >= 10 {
      var s := Decimal(a);
      assert Decimal(a / 10) == s[..|s| - 1] == Decimal(b / 10);
      DecimalInjective(a / 10, b / 10);
      assert s[|s| - 1] == ('0' as int + a % 10) as char == ('0' as int + b % 10) as char;
    }
  }

  /** SQLite's LIKE folds the case of ASCII letters. */
  function FoldChar(c: char): char {
    if 'A' <= c <= 'Z' then (c as int + 32) as char else c
  }

  /** The small form of an ASCII capital. */
  predicate SmallOf(capital: char, small: char) {
    && 'A' as int <= capital as int <= 'Z' as int && 'a' as int <= small as int <= 'z' as int
    && capital as int - 'A' as int == small as int - 'a' as int
  }

  /** Two characters are alike exactly when they are the same, or the two cases of one ASCII letter. */
  lemma AlikeIff(c: char, d: char)
    ensures FoldChar(c) == FoldChar(d) <==> c == d || SmallOf(c, d) || SmallOf(d, c)
  {
  }

  predicate LikePrefix(s: string, prefix: string) {
    |prefix| <= |s| && forall i | 0 <= i < |prefix| :: FoldChar(s[i]) == FoldChar(prefix[i])
  }

  predicate LikeInfix(s: string, infix: string) {
    exists i | 0 <= i <= |s| :: LikePrefix(s[i..], infix)
  }

  function RunRef(pid: nat): string { "process-run:" + Decimal(pid) }
  function WorkplaceDir(pid: nat): string { "workplace/" + Decimal(pid) + "/" }
  function CandidateDir(pid: nat): string { "candidate-set/" + Decimal(pid) + "/" }

  predicate SubjectNames(subject: string, pid: nat) {
    subject == RunRef(pid) || LikePrefix(subject, WorkplaceDir(pid)) || LikePrefix(subject, CandidateDir(pid))
  }

  predicate SourceNames(source: string, pid: nat) {
    source == RunRef(pid) || LikeInfix(source, WorkplaceDir(pid)) || LikeInfix(source, CandidateDir(pid))
  }

  predicate Digits(s: string) { forall i | 0 <= i < |s| :: '0' <= s[i] <= '9' }

  lemma LikeTail(s: string, a: string)
    requires LikePrefix(s, a + "/")
    ensures s != [] && FoldChar(s[0]) == FoldChar(if a == [] then '/' else a[0])
    ensures a != [] ==> LikePrefix(s[1..], a[1..] + "/")
  {
    assert FoldChar(s[0]) == FoldChar((a + "/")[0]);
    if a != [] {
      forall i | 0 <= i < |a[1..] + "/"| ensures FoldChar(s[1..][i]) == FoldChar((a[1..] + "/")[i]) {
        assert (a + "/")[i + 1] == (a[1..] + "/")[i];
      }
    }
  }

  /** Two runs of digits, each closed by a slash, at the start of one text are the same digits. */
  lemma {:induction false} SlashEndsDigits(s: string, a: string, b: string)
    requires Digits(a) && Digits(b)
    requires LikePrefix(s, a + "/") && LikePrefix(s, b + "/")
    ensures a == b
    decreases |a|
  {
    LikeTail(s, a);
    LikeTail(s, b);
    if a != [] && b != [] {
      SlashEndsDigits(s[1..], a[1..], b[1..]);
      assert a == [a[0]] + a[1..] && b == [b[0]] + b[1..];
    }
  }

  lemma DirNamesOne(s: string, dir: string, a: nat, b: nat)
    requires LikePrefix(s, dir + Decimal(a) + "/") && LikePrefix(s, dir + Decimal(b) + "/")
    ensures a == b
  {
    var rest := s[|dir|..];
    forall n: nat | n == a || n == b ensures LikePrefix(rest, Decimal(n) + "/") {
      var full := dir + Decimal(n) + "/";
      forall i | 0 <= i < |Decimal(n) + "/"| ensures FoldChar(rest[i]) == FoldChar((Decimal(n) + "/")[i]) {
        assert full[|dir| + i] == (Decimal(n) + "/")[i];
      }
    }
    assert Digits(Decimal(a)) && Digits(Decimal(b));
    SlashEndsDigits(rest, Decimal(a), Decimal(b));
    DecimalInjective(a, b);
  }

  /** The first letter tells the three kinds of subject apart. */
  lemma SubjectKind(subject: string, pid: nat)
    requires SubjectNames(subject, pid)
    ensures subject != []
    ensures subject == RunRef(pid) <==> FoldChar(subject[0]) == 'p'
    ensures LikePrefix(subject, WorkplaceDir(pid)) <==> FoldChar(subject[0]) == 'w'
    ensures LikePrefix(subject, CandidateDir(pid)) <==> FoldChar(subject[0]) == 'c'
  {
    assert RunRef(pid)[0] == 'p' && WorkplaceDir(pid)[0] == 'w' && CandidateDir(pid)[0] == 'c';
  }

  /** A subject reference names at most one process run: 4 never answers for 40. */
  lemma SubjectNamesOneRun(subject: string, a: nat, b: nat)
    requires SubjectNames(subject, a) && SubjectNames(subject, b)
    ensures a == b
  {
    SubjectKind(subject, a);
    SubjectKind(subject, b);
    if subject == RunRef(a) {
      assert Decimal(a) == subject[12..] == Decimal(b);
      DecimalInjective(a, b);
    } else if LikePrefix(subject, WorkplaceDir(a)) {
      DirNamesOne(subject, "workplace/", a, b);
    } else {
      DirNamesOne(subject, "candidate-set/", a, b);
    }
  }

  // ---- the references the program writes -------------------------------------------------

  /** A workplace reference: process run, module, cell and work key. */
  datatype Desk = Desk(pid: nat, moduleRef: string, cell: string, workKey: string)

  /** Some visible character, so not blank. */
  predicate Filled(s: string) { exists i | 0 <= i < |s| :: '!' <= s[i] <= '~' }

  predicate ValidDesk(desk: Desk) {
    desk.pid > 0 && '@' in desk.moduleRef && Filled(desk.moduleRef) && Filled(desk.cell) && Filled(desk.workKey)
  }

  function DeskTail(desk: Desk): string {
    desk.moduleRef + "/" + desk.cell + "/" + desk.workKey
  }

  function DeskRef(desk: Desk): string { WorkplaceDir(desk.pid) + DeskTail(desk) }

  /** What a candidate-set key holds after its run; a reviewer's ends in the author set it is about. */
  function KeyTail(desk: Desk, revision: string, role: string, subject: Option<string>): string {
    DeskTail(desk) + "/" + revision + "/" + role + (if subject.Some? then "/" + subject.value else "")
  }

  function SealKey(desk: Desk, revision: string, role: string, subject: Option<string>): string {
    CandidateDir(desk.pid) + KeyTail(desk, revision, role, subject)
  }

  /** A directory of the run stands somewhere in the text. */
  predicate Marked(text: string, pid: nat) {
    LikeInfix(text, WorkplaceDir(pid)) || LikeInfix(text, CandidateDir(pid))
  }

  lemma DirLetters(pid: nat)
    ensures WorkplaceDir(pid)[0] == 'w' && CandidateDir(pid)[0] == 'c'
    ensures forall i | 0 <= i < |CandidateDir(pid)| ::
      FoldChar(CandidateDir(pid)[i]) != 'w' && (FoldChar(CandidateDir(pid)[i]) == 'c' ==> i == 0)
  {
    var dir, word := CandidateDir(pid), "candidate-set/";
    forall i | 0 <= i < |dir| ensures FoldChar(dir[i]) != 'w' && (FoldChar(dir[i]) == 'c' ==> i == 0) {
      if i < |word| {
        assert dir[i] == word[i];
      } else if i < |dir| - 1 {
        assert dir[i] == Decimal(pid)[i - |word|];
      }
    }
  }

  lemma PrefixSelf(prefix: string, rest: string)
    ensures LikePrefix(prefix + rest, prefix)
  {
  }

  lemma InfixFrom(text: string, i: nat, infix: string)
    requires i <= |text| && LikePrefix(text[i..], infix)
    ensures LikeInfix(text, infix)
  {
  }

  /** No directory straddles the two parts, so one in the whole stands at its start or in the tail. */
  lemma InfixBeyond(head: string, tail: string, infix: string)
    requires infix != [] && head != []
    requires forall i | 0 < i < |head| :: FoldChar(head[i]) != FoldChar(infix[0])
    ensures LikeInfix(head + tail, infix) <==> LikePrefix(head + tail, infix) || LikeInfix(tail, infix)
  {
    var whole := head + tail;
    assert whole[0..] == whole;
    if LikeInfix(whole, infix) {
      var i :| 0 <= i <= |whole| && LikePrefix(whole[i..], infix);
      if i >= |head| {
        assert whole[i..] == tail[i - |head|..];
        InfixFrom(tail, i - |head|, infix);
      } else {
        assert FoldChar(whole[i..][0]) == FoldChar(infix[0]) && whole[i..][0] == head[i];
      }
    }
    if LikeInfix(tail, infix) {
      var i :| 0 <= i <= |tail| && LikePrefix(tail[i..], infix);
      assert whole[|head| + i..] == tail[i..];
      InfixFrom(whole, |head| + i, infix);
    }
  }

  /** Beyond its own directory, a key names what its tail names. */
  lemma KeyNames(pid: nat, tail: string, n: nat)
    ensures SourceNames(CandidateDir(pid) + tail, n) <==> n == pid || Marked(tail, n)
  {
    var dir := CandidateDir(pid);
    var key := dir + tail;
    DirLetters(pid);
    DirLetters(n);
    InfixBeyond(dir, tail, WorkplaceDir(n));
    InfixBeyond(dir, tail, CandidateDir(n));
    assert key[0] == 'c' && RunRef(n)[0] == 'p';
    assert !LikePrefix(key, WorkplaceDir(n)) by { assert FoldChar(key[0]) != FoldChar(WorkplaceDir(n)[0]); }
    if LikePrefix(key, CandidateDir(n)) {
      assert LikePrefix(key, CandidateDir(pid));
      DirNamesOne(key, "candidate-set/", pid, n);
    }
    if n == pid { assert LikePrefix(key, CandidateDir(n)); }
    hide LikeInfix, LikePrefix, WorkplaceDir, CandidateDir;
  }

  /**
   * A sealed candidate set's key, as an obligation's source, names exactly the
   * run it was sealed under if and only if what follows that run in the key
   * holds no directory of another one.
   */
  lemma KeyNamesOneRunIff(desk: Desk, revision: string, role: string, subject: Option<string>)
    ensures (forall n: nat :: SourceNames(SealKey(desk, revision, role, subject), n) <==> n == desk.pid)
            <==> (forall n: nat :: Marked(KeyTail(desk, revision, role, subject), n) ==> n == desk.pid)
  {
    forall n: nat
      ensures SourceNames(SealKey(desk, revision, role, subject), n) <==> n == desk.pid || Marked(KeyTail(desk, revision, role, subject), n)
    {
      KeyNames(desk.pid, KeyTail(desk, revision, role, subject), n);
    }
    hide SourceNames, Marked, SealKey, KeyTail;
  }

  /** A work key may hold slashes, so a valid workplace's key can name a second run. */
  lemma SourceMayNameTwoRuns()
    ensures
      var desk := Desk(4, "m@1", "cell", "workplace/40");
      var key := SealKey(desk, "rev", "author", None);
      ValidDesk(desk) && SourceNames(key, 4) && SourceNames(key, 40)
  {
    var desk := Desk(4, "m@1", "cell", "workplace/40");
    var tail := KeyTail(desk, "rev", "author", None);
    assert desk.moduleRef[0] == 'm' && desk.moduleRef[1] == '@' && desk.cell[0] == 'c' && desk.workKey[0] == 'w';
    TwoRunsTail();
    KeyNames(4, tail, 4);
    KeyNames(4, tail, 40);
    hide LikeInfix, Marked, SourceNames, KeyTail;
  }

  lemma TwoRunsTail()
    ensures Marked(KeyTail(Desk(4, "m@1", "cell", "workplace/40"), "rev", "author", None), 40)
  {
    var tail := KeyTail(Desk(4, "m@1", "cell", "workplace/40"), "rev", "author", None);
    assert WorkplaceDir(40) == "workplace/40/" by {
      assert Decimal(40) == Decimal(4) + "0" == "40";
    }
    hide Decimal, WorkplaceDir;
    assert tail == "m@1/cell/" + ("workplace/40/" + "rev/author");
    assert tail[9..] == WorkplaceDir(40) + "rev/author";
    PrefixSelf(WorkplaceDir(40), "rev/author");
    InfixFrom(tail, 9, WorkplaceDir(40));
    hide LikePrefix, LikeInfix;
  }

  /** A workplace reference, as an obligation's subject, names exactly its own run. */
  lemma DeskNamesItsRun(desk: Desk, n: nat)
    ensures SubjectNames(DeskRef(desk), n) <==> n == desk.pid
  {
    PrefixSelf(WorkplaceDir(desk.pid), DeskTail(desk));
    assert SubjectNames(DeskRef(desk), desk.pid);
    if SubjectNames(DeskRef(desk), n) {
      SubjectNamesOneRun(DeskRef(desk), n, desk.pid);
    }
    hide SubjectNames;
  }

  // ---- a directory is two adjacent segments ------------------------------------------------

  /** The text split at its slashes. */
  function Segments(s: string): (r: seq<string>)
    ensures r != []
    decreases |s|
  {
    if s == [] then [[]]
    else
      var r := Segments(s[1..]);
      if s[0] == '/' then [[]] + r else [[s[0]] + r[0]] + r[1..]
  }

  predicate FoldEqual(a: string, b: string) {
    |a| == |b| && forall i | 0 <= i < |a| :: FoldChar(a[i]) == FoldChar(b[i])
  }

  predicate FoldEnds(a: string, b: string) {
    |b| <= |a| && FoldEqual(a[|a| - |b|..], b)
  }

  predicate Slashless(word: string) { forall i | 0 <= i < |word| :: word[i] != '/' }

  /** Two segments read word and digits, and another follows. */
  predicate PairAt(segments: seq<string>, word: string, digits: string, i: nat) {
    i + 2 < |segments| && FoldEnds(segments[i], word) && segments[i + 1] == digits
  }

  predicate HasPair(segments: seq<string>, word: string, digits: string) {
    exists i: nat | i < |segments| :: PairAt(segments, word, digits, i)
  }

  lemma {:induction false} DigitsHead(s: string, digits: string)
    requires Digits(digits)
    ensures LikePrefix(s, digits + "/") <==> |Segments(s)| >= 2 && Segments(s)[0] == digits
    decreases |digits|
  {
    if LikePrefix(s, digits + "/") { LikeTail(s, digits); }
    if s != [] && digits != [] {
      DigitsHead(s[1..], digits[1..]);
      assert digits == [digits[0]] + digits[1..];
      if s[0] == digits[0] && LikePrefix(s[1..], digits[1..] + "/") { PrefixCons(s, digits[0], digits[1..] + "/"); assert [digits[0]] + (digits[1..] + "/") == digits + "/"; }
    }
  }

  lemma PrefixCons(s: string, c: char, rest: string)
    requires s != []
    ensures LikePrefix(s, [c] + rest) <==> FoldChar(s[0]) == FoldChar(c) && LikePrefix(s[1..], rest)
  {
    if LikePrefix(s, [c] + rest) {
      assert FoldChar(s[0]) == FoldChar(([c] + rest)[0]);
      forall i | 0 <= i < |rest| ensures FoldChar(s[1..][i]) == FoldChar(rest[i]) {
        assert ([c] + rest)[i + 1] == rest[i];
      }
    }
  }

  lemma {:induction false} WordHead(s: string, word: string, digits: string)
    requires Slashless(word) && Digits(digits)
    ensures LikePrefix(s, word + ("/" + (digits + "/"))) <==>
      |Segments(s)| >= 3 && FoldEqual(Segments(s)[0], word) && Segments(s)[1] == digits
    decreases |word|
  {
    var rest := "/" + (digits + "/");
    if s == [] {
    } else if word == [] {
      assert word + rest == ['/'] + (digits + "/");
      PrefixCons(s, '/', digits + "/");
      DigitsHead(s[1..], digits);
    } else {
      assert word + rest == [word[0]] + (word[1..] + rest);
      PrefixCons(s, word[0], word[1..] + rest);
      WordHead(s[1..], word[1..], digits);
      FoldCons(s[0], Segments(s[1..])[0], word);
    }
  }

  lemma FoldCons(c: char, a: string, word: string)
    requires word != []
    ensures FoldEqual([c] + a, word) <==> FoldChar(c) == FoldChar(word[0]) && FoldEqual(a, word[1..])
    ensures FoldEnds([c] + a, word) <==> FoldEqual([c] + a, word) || FoldEnds(a, word)
  {
    if FoldEqual([c] + a, word) {
      assert ([c] + a)[0] == c;
      forall i | 0 <= i < |a| ensures FoldChar(a[i]) == FoldChar(word[1..][i]) { assert ([c] + a)[i + 1] == a[i]; }
    }
    if |word| <= |a| {
      assert ([c] + a)[1 + |a| - |word|..] == a[|a| - |word|..];
    }
  }

  /** A directory stands in a text exactly when two adjacent segments read its word and its run, and one more follows. */
  lemma {:induction false} DirIsPair(s: string, word: string, digits: string)
    requires word != [] && Slashless(word) && Digits(digits)
    ensures LikeInfix(s, word + ("/" + (digits + "/"))) <==> HasPair(Segments(s), word, digits)
    decreases |s|
  {
    var dir := word + ("/" + (digits + "/"));
    WordHead(s, word, digits);
    if s != [] {
      DirIsPair(s[1..], word, digits);
      InfixCons(s, dir);
      PairCons(s, word, digits);
    } else {
      assert forall i | 0 <= i <= |s| :: s[i..] == s;
    }
    hide LikePrefix, LikeInfix, HasPair;
  }

  lemma InfixCons(s: string, infix: string)
    requires s != []
    ensures LikeInfix(s, infix) <==> LikePrefix(s, infix) || LikeInfix(s[1..], infix)
  {
    assert s[0..] == s;
    if LikeInfix(s, infix) {
      var i :| 0 <= i <= |s| && LikePrefix(s[i..], infix);
      if i > 0 {
        assert s[i..] == s[1..][i - 1..];
        InfixFrom(s[1..], i - 1, infix);
      }
    }
    if LikeInfix(s[1..], infix) {
      var i :| 0 <= i <= |s[1..]| && LikePrefix(s[1..][i..], infix);
      assert s[i + 1..] == s[1..][i..];
      InfixFrom(s, i + 1, infix);
    }
  }

  /** A pair stands at the first segment or among the later ones. */
  lemma LaterPair(a: string, rest: seq<string>, word: string, digits: string)
    ensures HasPair([a] + rest, word, digits) <==> PairAt([a] + rest, word, digits, 0) || HasPair(rest, word, digits)
  {
    hide FoldEnds;
    var all := [a] + rest;
    if HasPair(all, word, digits) {
      var i: nat :| i < |all| && PairAt(all, word, digits, i);
      if i > 0 { assert PairAt(rest, word, digits, i - 1); }
    }
    if HasPair(rest, word, digits) {
      var i: nat :| i < |rest| && PairAt(rest, word, digits, i);
      assert PairAt(all, word, digits, i + 1);
    }
  }

  lemma PairCons(s: string, word: string, digits: string)
    requires s != [] && word != []
    ensures HasPair(Segments(s), word, digits) <==>
      (|Segments(s)| >= 3 && FoldEqual(Segments(s)[0], word) && Segments(s)[1] == digits) || HasPair(Segments(s[1..]), word, digits)
  {
    var rest := Segments(s[1..]);
    FoldCons(s[0], rest[0], word);
    if s[0] == '/' {
      LaterPair([], rest, word, digits);
    } else {
      LaterPair([s[0]] + rest[0], rest[1..], word, digits);
      LaterPair(rest[0], rest[1..], word, digits);
      assert rest == [rest[0]] + rest[1..];
    }
    hide HasPair, FoldEqual;
  }

  /** The exact condition on a key's components, segment by segment. */
  lemma MarkedIffPair(text: string, pid: nat)
    ensures Marked(text, pid) <==>
      HasPair(Segments(text), "workplace", Decimal(pid)) || HasPair(Segments(text), "candidate-set", Decimal(pid))
  {
    assert Digits(Decimal(pid));
    DirIsPair(text, "workplace", Decimal(pid));
    DirIsPair(text, "candidate-set", Decimal(pid));
    assert WorkplaceDir(pid) == "workplace" + ("/" + (Decimal(pid) + "/"));
    assert CandidateDir(pid) == "candidate-set" + ("/" + (Decimal(pid) + "/"));
    hide LikeInfix, HasPair, Decimal;
  }

  /** The other sources, digests behind a colon, have no slash and name nothing but a process run spelled out. */
  lemma SlashlessNamesOnlyItsRun(source: string, n: nat)
    requires Slashless(source)
    ensures SourceNames(source, n) <==> source == RunRef(n)
  {
    forall dir | dir in {WorkplaceDir(n), CandidateDir(n)} ensures !LikeInfix(source, dir) {
      assert dir[|dir| - 1] == '/';
      forall i | 0 <= i <= |source| ensures !LikePrefix(source[i..], dir) {
        if i + |dir| <= |source| {
          assert source[i..][|dir| - 1] == source[i + |dir| - 1] != '/';
          assert FoldChar(source[i..][|dir| - 1]) != FoldChar(dir[|dir| - 1]);
        }
      }
    }
    assert WorkplaceDir(n) in {WorkplaceDir(n), CandidateDir(n)} && CandidateDir(n) in {WorkplaceDir(n), CandidateDir(n)};
    hide LikeInfix, WorkplaceDir, CandidateDir;
  }
}
