/** Object keys of the bucket: how artifact keys and uploaded source keys are built, and why no two
    owners can ever share one.  A key is read back through its '/'-separated segments. */
module ObjectKeys {

  // ---------------------------------------------------------------- strings

  /** Go's strings.ReplaceAll for a non-empty pattern: left to right, without overlap. */
  function ReplaceAll(s: string, pattern: string, with: string): string
    requires pattern != ""
  {
    if |s| < |pattern| then s
    else if pattern <= s then with + ReplaceAll(s[|pattern|..], pattern, with)
    else [s[0]] + ReplaceAll(s[1..], pattern, with)
  }

  predicate Occurs(pattern: string, s: string) {
    pattern <= s || (s != "" && Occurs(pattern, s[1..]))
  }

  function SanitizeSegment(s: string): string {
    var noSlash := ReplaceAll(s, "/", "_");
    var noBackslash := ReplaceAll(noSlash, "\\", "_");
    var noDots := ReplaceAll(noBackslash, "..", "_");
    if noDots == "" then "_" else noDots
  }

  /** Go's filepath.Ext: the suffix from the last dot of the last path element, or nothing. */
  function Ext(path: string): (e: string)
    ensures '/' !in e
    ensures e == "" || (e[0] == '.' && '.' !in e[1..])
  {
    if path == "" || path[|path| - 1] == '/' then ""
    else if path[|path| - 1] == '.' then "."
    else
      var shorter := Ext(path[..|path| - 1]);
      if shorter == "" then "" else shorter + [path[|path| - 1]]
  }

  function Split(s: string): (parts: seq<string>)
    ensures |parts| > 0
  {
    if s == "" then [""] else Push(s[0], Split(s[1..]))
  }

  function Push(c: char, parts: seq<string>): (r: seq<string>)
    requires |parts| > 0
    ensures |r| > 0
  {
    if c == '/' then [""] + parts else [[c] + parts[0]] + parts[1..]
  }

  function Join4(a: string, b: string, c: string, d: string): string {
    a + ("/" + (b + ("/" + (c + ("/" + d)))))
  }

  // ---------------------------------------------------------------- keys

  datatype Kind = Unsigned | SignedTest

  function KindName(kind: Kind): string {
    if kind == Unsigned then "unsigned" else "signed_test"
  }

  /** The extension runTask derives from the source object, with its ".apk" fallback. */
  function ArtifactExt(sourceKey: string): string {
    var e := Ext(sourceKey);
    if e == "" then ".apk" else e
  }

  function ArtifactKey(packageName: string, taskNo: string, kind: Kind, ext: string): string {
    Join4(SanitizeSegment(packageName), "hardening", taskNo, KindName(kind) + ext)
  }

  function SourceKey(packageName: string, sum12: string, fileName: string): string {
    packageName + ("/" + (sum12 + ("/" + fileName)))
  }

  predicate IsHex(c: char) { '0' <= c <= '9' || 'a' <= c <= 'f' }

  predicate IsHex12(s: string) { |s| == 12 && forall i :: 0 <= i < 12 ==> IsHex(s[i]) }

  /** What generateHardeningTaskNo guarantees about its output (GeneratedTaskNo below). */
  predicate IsTaskNo(s: string) { "TASK-" <= s && '/' !in s }

  /** The second-to-last segment: the owner written into a key. */
  function Owner(key: string): string {
    var parts := Split(key);
    if |parts| < 2 then "" else parts[|parts| - 2]
  }

  predicate IsSourceKey(key: string) { IsHex12(Owner(key)) }

  /** Decimal rendering of a clock reading, as fmt's %d writes it. */
  function Decimal(n: int): string
    decreases n < 0, if n < 0 then -n else n
  {
    if n < 0 then "-" + Decimal(-n)
    else if n < 10 then [('0' as int + n) as char]
    else Decimal(n / 10) + [('0' as int + n % 10) as char]
  }

  function GenerateTaskNo(day: string, nanos: int): string {
    "TASK-" + day + "-" + Decimal(nanos)
  }

  // ---------------------------------------------------------------- sanitizer

  /** Nothing in a sanitized segment can move a key to another place of the bucket. */
  ghost predicate SafeSegment(s: string) {
    s != "" && '/' !in s && '\\' !in s && !Occurs("..", s)
  }

  lemma {:induction false} ReplacedCharGone(s: string, c: char, with: string)
    requires c !in with
    ensures c !in ReplaceAll(s, [c], with)
    ensures forall d :: d !in s && d !in with ==> d !in ReplaceAll(s, [c], with)
  {
    if s != "" {
      ReplacedCharGone(s[1..], c, with);
    }
  }

  lemma {:induction false} DotsReplaced(s: string)
    ensures var r := ReplaceAll(s, "..", "_");
      && !Occurs("..", r)
      && (forall d :: d !in s && d != '_' ==> d !in r)
      && (r != "" && r[0] == '.' ==> s != "" && s[0] == '.')
  {
    if |s| >= 2 {
      var tail := if ".." <= s then s[2..] else s[1..];
      DotsReplaced(tail);
      var r := ReplaceAll(s, "..", "_");
      assert r[1..] == ReplaceAll(tail, "..", "_");
      assert s[0] == '.' && s[1] == '.' ==> s[..2] == "..";
    }
  }

  lemma {:induction false} ReplaceNothing(s: string, pattern: string, with: string)
    requires pattern != "" && !Occurs(pattern, s)
    ensures ReplaceAll(s, pattern, with) == s
  {
    if |s| >= |pattern| {
      ReplaceNothing(s[1..], pattern, with);
    }
  }

  lemma {:induction false} AbsentChar(c: char, s: string)
    requires c !in s
    ensures !Occurs([c], s)
  {
    if s != "" {
      assert s[0] == s[..1][0] != c;
      AbsentChar(c, s[1..]);
    }
  }

  lemma SanitizedIsSafe(s: string)
    ensures SafeSegment(SanitizeSegment(s))
  {
    var noSlash := ReplaceAll(s, "/", "_");
    ReplacedCharGone(s, '/', "_");
    var noBackslash := ReplaceAll(noSlash, "\\", "_");
    ReplacedCharGone(noSlash, '\\', "_");
    DotsReplaced(noBackslash);
  }

  /** The sanitizer changes exactly the unsafe strings ... */
  lemma SanitizeFixesExactlyUnsafe(s: string)
    ensures SanitizeSegment(s) == s <==> SafeSegment(s)
  {
    SanitizedIsSafe(s);
    if SafeSegment(s) {
      AbsentChar('/', s);
      AbsentChar('\\', s);
      ReplaceNothing(s, "/", "_");
      ReplaceNothing(s, "\\", "_");
      ReplaceNothing(s, "..", "_");
    }
  }

  /** ... so running it again changes nothing. */
  lemma SanitizeIdempotent(s: string)
    ensures SanitizeSegment(SanitizeSegment(s)) == SanitizeSegment(s)
  {
    SanitizedIsSafe(s);
    SanitizeFixesExactlyUnsafe(SanitizeSegment(s));
  }

  // ---------------------------------------------------------------- segments

  lemma {:induction false} SplitPlain(s: string)
    requires '/' !in s
    ensures Split(s) == [s]
  {
    if s != "" {
      SplitPlain(s[1..]);
      assert [s[0]] + s[1..] == s;
    }
  }

  lemma PushAppend(c: char, t: seq<string>, u: seq<string>)
    requires |t| > 0
    ensures Push(c, t + u) == Push(c, t) + u
  {
    assert (t + u)[1..] == t[1..] + u;
  }

  lemma {:induction false} SplitJoin(a: string, b: string)
    ensures Split(a + ("/" + b)) == Split(a) + Split(b)
  {
    var whole, tail := a + ("/" + b), "/" + b;
    if a == "" {
      assert whole == tail && tail[0] == '/' && tail[1..] == b;
    } else {
      SplitJoin(a[1..], b);
      assert whole[0] == a[0] && whole[1..] == a[1..] + tail;
      PushAppend(a[0], Split(a[1..]), Split(b));
    }
  }

  lemma SplitFour(a: string, b: string, c: string, d: string)
    requires '/' !in a && '/' !in b && '/' !in c && '/' !in d
    ensures Split(Join4(a, b, c, d)) == [a, b, c, d]
  {
    SplitPlain(a);
    SplitPlain(b);
    SplitPlain(c);
    SplitPlain(d);
    SplitJoin(c, d);
    SplitJoin(b, c + ("/" + d));
    SplitJoin(a, b + ("/" + (c + ("/" + d))));
  }

  lemma ArtifactKeySegments(packageName: string, taskNo: string, kind: Kind, ext: string)
    requires '/' !in taskNo && '/' !in ext
    ensures Split(ArtifactKey(packageName, taskNo, kind, ext))
         == [SanitizeSegment(packageName), "hardening", taskNo, KindName(kind) + ext]
    ensures Owner(ArtifactKey(packageName, taskNo, kind, ext)) == taskNo
  {
    var seg, leaf := SanitizeSegment(packageName), KindName(kind) + ext;
    SanitizedIsSafe(packageName);
    SplitFour(seg, "hardening", taskNo, leaf);
  }

  lemma SourceKeyOwner(packageName: string, sum12: string, fileName: string)
    requires '/' !in sum12 && '/' !in fileName
    ensures Owner(SourceKey(packageName, sum12, fileName)) == sum12
  {
    SplitPlain(sum12);
    SplitPlain(fileName);
    SplitJoin(sum12, fileName);
    SplitJoin(packageName, sum12 + ("/" + fileName));
  }

  /** An artifact key determines everything it was made of. */
  lemma ArtifactKeyInjective(p1: string, n1: string, k1: Kind, e1: string,
                             p2: string, n2: string, k2: Kind, e2: string)
    requires '/' !in n1 && '/' !in n2 && '/' !in e1 && '/' !in e2
    requires ArtifactKey(p1, n1, k1, e1) == ArtifactKey(p2, n2, k2, e2)
    ensures SanitizeSegment(p1) == SanitizeSegment(p2) && n1 == n2 && k1 == k2 && e1 == e2
  {
    ArtifactKeySegments(p1, n1, k1, e1);
    ArtifactKeySegments(p2, n2, k2, e2);
    var leaf := KindName(k1) + e1;
    assert leaf == KindName(k2) + e2;
    assert leaf[0] == KindName(k1)[0] == KindName(k2)[0];
    assert e1 == leaf[|KindName(k1)|..] && e2 == leaf[|KindName(k2)|..];
  }

  /** An artifact never lands on an uploaded source, nor the other way round. */
  lemma ArtifactKeyIsNoSourceKey(packageName: string, taskNo: string, kind: Kind, ext: string)
    requires IsTaskNo(taskNo) && '/' !in ext
    ensures !IsSourceKey(ArtifactKey(packageName, taskNo, kind, ext))
  {
    ArtifactKeySegments(packageName, taskNo, kind, ext);
    TaskNoIsNotHex(taskNo);
  }

  lemma UploadedKeyIsSourceKey(packageName: string, sum12: string, fileName: string)
    requires IsHex12(sum12) && '/' !in fileName
    ensures IsSourceKey(SourceKey(packageName, sum12, fileName))
  {
    assert '/' !in sum12;
    SourceKeyOwner(packageName, sum12, fileName);
  }

  lemma TaskNoIsNotHex(taskNo: string)
    requires IsTaskNo(taskNo)
    ensures !IsHex12(taskNo)
  {
    assert taskNo[0] == "TASK-"[0];
    assert !IsHex('T');
  }

  lemma {:induction false} DecimalHasNoSlash(n: int)
    ensures '/' !in Decimal(n)
    decreases n < 0, if n < 0 then -n else n
  {
    if n < 0 {
      DecimalHasNoSlash(-n);
    } else if n >= 10 {
      DecimalHasNoSlash(n / 10);
    }
  }

  lemma GeneratedTaskNo(day: string, nanos: int)
    requires '/' !in day
    ensures IsTaskNo(GenerateTaskNo(day, nanos))
  {
    DecimalHasNoSlash(nanos);
    assert "TASK-" <= "TASK-" + (day + "-" + Decimal(nanos));
    assert GenerateTaskNo(day, nanos) == "TASK-" + (day + "-" + Decimal(nanos));
  }

  /** Reads a decimal number. */
  function Value(s: string): int {
    if s != "" && s[0] == '-' then -Digits(s[1..]) else Digits(s)
  }

  function Digits(s: string): int {
    if s == "" then 0 else 10 * Digits(s[..|s| - 1]) + (s[|s| - 1] as int - '0' as int)
  }

  lemma {:induction false} DecimalReads(n: int)
    ensures Decimal(n) != "" && Value(Decimal(n)) == n
    ensures n >= 0 ==> Decimal(n)[0] != '-' && Digits(Decimal(n)) == n
    decreases n < 0, if n < 0 then -n else n
  {
    if n < 0 {
      DecimalReads(-n);
    } else if n < 10 {
      assert Decimal(n)[..0] == "" && Digits("") == 0;
    } else {
      DecimalReads(n / 10);
      var all, front := Decimal(n), Decimal(n / 10);
      assert all == front + [('0' as int + n % 10) as char];
      assert all[..|all| - 1] == front;
    }
  }

  /** Two task numbers agree exactly when they were generated at the same instant of the same day. */
  lemma TaskNosDiffer(day: string, nanos: int, day': string, nanos': int)
    requires |day| == |day'|
    ensures GenerateTaskNo(day, nanos) == GenerateTaskNo(day', nanos') <==> day == day' && nanos == nanos'
  {
    hide Decimal;
    var a, b := GenerateTaskNo(day, nanos), GenerateTaskNo(day', nanos');
    assert a[5..5 + |day|] == day && a[6 + |day|..] == Decimal(nanos);
    assert b[5..5 + |day|] == day' && b[6 + |day|..] == Decimal(nanos');
    DecimalReads(nanos);
    DecimalReads(nanos');
  }

  // ---------------------------------------------------------------- what replacing and extensions are

  /** With ReplaceNothing this is all of ReplaceAll: the first occurrence goes, and the rest is treated alike. */
  lemma {:induction false} ReplaceFirst(s: string, pattern: string, with: string, i: nat)
    requires pattern != "" && i <= |s| && pattern <= s[i..]
    requires forall j :: 0 <= j < i ==> !(pattern <= s[j..])
    ensures ReplaceAll(s, pattern, with) == s[..i] + with + ReplaceAll(s[i..][|pattern|..], pattern, with)
  {
    hide ReplaceAll;
    assert s[0..] == s;
    ReplaceStep(s, pattern, with);
    if i == 0 {
      assert s[..0] + with == with;
    } else {
      var tail, rest := s[1..], ReplaceAll(s[i..][|pattern|..], pattern, with);
      NoEarlier(s, pattern, i);
      assert tail[i - 1..] == s[i..];
      ReplaceFirst(tail, pattern, with, i - 1);
      assert [s[0]] + (tail[..i - 1] + with + rest) == s[..i] + with + rest;
    }
  }

  lemma ReplaceStep(s: string, pattern: string, with: string)
    requires pattern != "" && |s| >= |pattern|
    ensures ReplaceAll(s, pattern, with) ==
      if pattern <= s then with + ReplaceAll(s[|pattern|..], pattern, with)
      else [s[0]] + ReplaceAll(s[1..], pattern, with)
  {
  }

  lemma NoEarlier(s: string, pattern: string, i: nat)
    requires 0 < i <= |s| && forall j :: 0 <= j < i ==> !(pattern <= s[j..])
    ensures forall j :: 0 <= j < i - 1 ==> !(pattern <= s[1..][j..])
  {
    forall j | 0 <= j < i - 1 ensures !(pattern <= s[1..][j..]) {
      assert s[1..][j..] == s[j + 1..];
    }
  }

  function Underscored(s: string): (r: string)
    ensures |r| == |s| && forall i :: 0 <= i < |s| ==> r[i] == if s[i] == '/' || s[i] == '\\' then '_' else s[i]
  {
    seq(|s|, i requires 0 <= i < |s| => if s[i] == '/' || s[i] == '\\' then '_' else s[i])
  }

  lemma {:induction false} ReplaceCharIsMap(s: string, c: char, d: char)
    ensures var r := ReplaceAll(s, [c], [d]);
      |r| == |s| && forall i :: 0 <= i < |s| ==> r[i] == if s[i] == c then d else s[i]
  {
    if s != "" {
      ReplaceCharIsMap(s[1..], c, d);
    }
  }

  /** The sanitizer: separators become underscores one by one, then so do pairs of dots; nothing becomes "_". */
  lemma SanitizeIs(s: string)
    ensures SanitizeSegment(s) == if s == "" then "_" else ReplaceAll(Underscored(s), "..", "_")
  {
    ReplaceCharIsMap(s, '/', '_');
    ReplaceCharIsMap(ReplaceAll(s, "/", "_"), '\\', '_');
    assert ReplaceAll(ReplaceAll(s, "/", "_"), "\\", "_") == Underscored(s);
    SomethingIsLeft(Underscored(s));
  }

  lemma {:induction false} SomethingIsLeft(s: string)
    ensures s != "" ==> ReplaceAll(s, "..", "_") != ""
  {
  }

  /** The extension starts at the last dot of the last path element. */
  lemma {:induction false} ExtFromLastDot(front: string, suffix: string)
    requires '/' !in suffix && '.' !in suffix
    ensures Ext(front + "." + suffix) == ArtifactExt(front + "." + suffix) == "." + suffix
  {
    var path := front + "." + suffix;
    if suffix == "" {
      assert path[|path| - 1] == '.';
    } else {
      var shorter := suffix[..|suffix| - 1];
      ExtFromLastDot(front, shorter);
      assert path[..|path| - 1] == front + "." + shorter;
      assert suffix == shorter + [suffix[|suffix| - 1]];
    }
  }

  /** And there is none without a dot in that element. */
  lemma {:induction false} NoDotNoExt(dir: string, name: string)
    requires '/' !in name && '.' !in name && (dir == "" || dir[|dir| - 1] == '/')
    ensures Ext(dir + name) == "" && ArtifactExt(dir + name) == ".apk"
  {
    if name != "" {
      var shorter := name[..|name| - 1];
      NoDotNoExt(dir, shorter);
      assert (dir + name)[..|dir + name| - 1] == dir + shorter;
    }
  }
}
