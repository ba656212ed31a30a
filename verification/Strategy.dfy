/** A hardening strategy, the engine flags it really turns on, and the risk level they earn. */
module Strategy {

  /** The frozen content of a strategy; a task keeps a copy of it. */
  datatype Strategy = Strategy(
    frida: bool, xposed: bool, emulator: bool,
    dexLevel: string, stringEncrypt: bool, resMix: bool,
    soShell: string, soStrength: int, targetSos: seq<string>,
    rootDetect: bool, signature: bool, sigPolicy: string, antiHook: bool, resEncrypt: bool,
    screenshotProtect: bool, fileIntegrityCheck: bool, proxyDetect: bool,
    vmpRulesText: string)

  const DEX_LOW := "low"
  const DEX_MEDIUM := "medium"
  const DEX_HIGH := "high"
  const SO_NONE := "none"
  const SO_VMP := "vmp"
  const SIG_WARN := "warn"
  const SIG_BLOCK := "block"

  datatype EffectiveFlags = EffectiveFlags(
    emulatorDetect: bool, rootDetect: bool, hookDetect: bool,
    sigVerify: bool, sigPolicy: string,
    stringEncrypt: bool, assetsEncrypt: bool, vmpEnabled: bool,
    screenshotProtect: bool, fileIntegrityCheck: bool, proxyDetect: bool)

  function ResolveSigPolicy(policy: string): string {
    if policy == SIG_WARN then SIG_WARN else SIG_BLOCK
  }

  function ResolveEffectiveFlags(s: Strategy): EffectiveFlags {
    EffectiveFlags(
      s.emulator, s.rootDetect, s.antiHook || s.frida || s.xposed,
      s.signature, if s.signature then ResolveSigPolicy(s.sigPolicy) else "",
      s.stringEncrypt, s.resEncrypt, s.dexLevel == DEX_HIGH || s.soShell == SO_VMP,
      s.screenshotProtect, s.fileIntegrityCheck, s.proxyDetect)
  }

  /** Which switches of a strategy turn on which protection of the engine. */
  lemma SwitchesBehindFlags(s: Strategy)
    ensures var f := ResolveEffectiveFlags(s);
      && (f.emulatorDetect <==> s.emulator) && (f.rootDetect <==> s.rootDetect)
      && (f.hookDetect <==> s.antiHook || s.frida || s.xposed)
      && (f.stringEncrypt <==> s.stringEncrypt) && (f.assetsEncrypt <==> s.resEncrypt)
      && (f.vmpEnabled <==> s.dexLevel == "high" || s.soShell == "vmp")
      && (f.screenshotProtect <==> s.screenshotProtect) && (f.fileIntegrityCheck <==> s.fileIntegrityCheck)
      && (f.proxyDetect <==> s.proxyDetect)
      && (f.sigVerify <==> s.signature) && (!s.signature ==> f.sigPolicy == "")
      && (s.signature ==> f.sigPolicy == if s.sigPolicy == "warn" then "warn" else "block")
  {
  }

  // ---------------------------------------------------------------- scoring

  datatype RiskLevel = Low | Medium | High | Critical

  function BoolScore(enabled: bool, weight: int): int { if enabled then weight else 0 }

  function DexScore(level: string): int {
    if level == DEX_LOW then 5 else if level == DEX_MEDIUM then 12 else if level == DEX_HIGH then 20 else 0
  }

  function EncryptionScore(flags: EffectiveFlags): int {
    if flags.stringEncrypt && flags.assetsEncrypt then 15
    else if flags.stringEncrypt || flags.assetsEncrypt then 8
    else 0
  }

  function AfterScore(flags: EffectiveFlags, dexLevel: string): int {
    var earned := BoolScore(flags.emulatorDetect || flags.rootDetect, 15)
                + BoolScore(flags.hookDetect, 15)
                + BoolScore(flags.sigVerify, 15)
                + DexScore(dexLevel)
                + BoolScore(flags.vmpEnabled, 20)
                + EncryptionScore(flags);
    if 100 - earned < 5 then 5 else 100 - earned
  }

  function RiskLevelForScore(afterScore: int): RiskLevel {
    if afterScore < 25 then Low
    else if afterScore < 50 then Medium
    else if afterScore < 75 then High
    else Critical
  }

  function ResolveRiskLevel(s: Strategy): RiskLevel {
    RiskLevelForScore(AfterScore(ResolveEffectiveFlags(s), s.dexLevel))
  }

  function If(enabled: bool, points: int): int { if enabled then points else 0 }

  /** The risk level straight from the switches: what they earn comes off 100, and the rest is graded. */
  lemma RiskOfSwitches(s: Strategy)
    ensures var earned :=
        If(s.emulator || s.rootDetect, 15) + If(s.antiHook || s.frida || s.xposed, 15) + If(s.signature, 15)
        + If(s.dexLevel == "low", 5) + If(s.dexLevel == "medium", 12) + If(s.dexLevel == "high", 20)
        + If(s.dexLevel == "high" || s.soShell == "vmp", 20)
        + If(s.stringEncrypt || s.resEncrypt, 8) + If(s.stringEncrypt && s.resEncrypt, 7);
      && (ResolveRiskLevel(s) == Low <==> earned > 75)
      && (ResolveRiskLevel(s) == Medium <==> 50 < earned <= 75)
      && (ResolveRiskLevel(s) == High <==> 25 < earned <= 50)
      && (ResolveRiskLevel(s) == Critical <==> earned <= 25)
      && AfterScore(ResolveEffectiveFlags(s), s.dexLevel) == if earned > 95 then 5 else 100 - earned
  {
  }

  function Rank(level: RiskLevel): nat {
    match level
    case Low => 0
    case Medium => 1
    case High => 2
    case Critical => 3
  }

  /** Strategy t protects at least wherever s does: the effective flags only get stronger. */
  predicate AtLeast(s: Strategy, t: Strategy) {
    var f, g := ResolveEffectiveFlags(s), ResolveEffectiveFlags(t);
    && (f.emulatorDetect ==> g.emulatorDetect) && (f.rootDetect ==> g.rootDetect) && (f.hookDetect ==> g.hookDetect)
    && (f.sigVerify ==> g.sigVerify) && (f.stringEncrypt ==> g.stringEncrypt) && (f.assetsEncrypt ==> g.assetsEncrypt)
    && (f.vmpEnabled ==> g.vmpEnabled) && DexScore(s.dexLevel) <= DexScore(t.dexLevel)
  }

  /** Adding protection never raises the score or the risk level, and no strategy scores below 5 or above 100. */
  lemma MoreProtectionNeverRaisesRisk(s: Strategy, t: Strategy)
    requires AtLeast(s, t)
    ensures 5 <= AfterScore(ResolveEffectiveFlags(t), t.dexLevel) <= AfterScore(ResolveEffectiveFlags(s), s.dexLevel) <= 100
    ensures Rank(ResolveRiskLevel(t)) <= Rank(ResolveRiskLevel(s))
  {
    hide ResolveEffectiveFlags;
    var f, g := ResolveEffectiveFlags(s), ResolveEffectiveFlags(t);
    EncryptionGrows(f, g);
    EncryptionGrows(g, g);
  }

  lemma EncryptionGrows(f: EffectiveFlags, g: EffectiveFlags)
    requires (f.stringEncrypt ==> g.stringEncrypt) && (f.assetsEncrypt ==> g.assetsEncrypt)
    ensures 0 <= EncryptionScore(f) <= EncryptionScore(g) <= 15
  {
  }

  // ---------------------------------------------------------------- text

  /** Unicode White_Space, the class strings.TrimSpace strips. */
  predicate IsSpace(c: char) {
    var n := c as int;
    9 <= n <= 13 || n == 32 || n == 0x85 || n == 0xA0 || n == 0x1680 || 0x2000 <= n <= 0x200A
    || n == 0x2028 || n == 0x2029 || n == 0x202F || n == 0x205F || n == 0x3000
  }

  predicate AllSpace(s: string) { forall i :: 0 <= i < |s| ==> IsSpace(s[i]) }

  /** r is what is left of s between its outer white space. */
  ghost predicate IsMiddle(r: string, s: string) {
    && (r != "" ==> !IsSpace(r[0]) && !IsSpace(r[|r| - 1]))
    && exists i, j :: 0 <= i <= j <= |s| && r == s[i..j] && AllSpace(s[..i]) && AllSpace(s[j..])
  }

  function TrimLeft(s: string): (r: string)
    ensures r == "" || !IsSpace(r[0])
    ensures |r| <= |s| && r == s[|s| - |r|..] && AllSpace(s[..|s| - |r|])
  {
    if s != "" && IsSpace(s[0]) then
      var r := TrimLeft(s[1..]);
      assert s[..|s| - |r|] == [s[0]] + s[1..][..|s| - 1 - |r|];
      r
    else s
  }

  function TrimRight(s: string): (r: string)
    ensures r == "" || !IsSpace(r[|r| - 1])
    ensures r <= s && AllSpace(s[|r|..])
  {
    if s != "" && IsSpace(s[|s| - 1]) then
      var r := TrimRight(s[..|s| - 1]);
      assert s[|r|..] == s[..|s| - 1][|r|..] + [s[|s| - 1]];
      r
    else s
  }

  function TrimSpace(s: string): (r: string)
    ensures IsMiddle(r, s)
  {
    var left := TrimLeft(s);
    var r := TrimRight(left);
    assert r == s[|s| - |left|..|s| - |left| + |r|] && s[|s| - |left| + |r|..] == left[|r|..];
    r
  }

  predicate IsTrimmed(s: string) { s == "" || (!IsSpace(s[0]) && !IsSpace(s[|s| - 1])) }

  lemma OutsideIsSpace(s: string, i: nat, j: nat, n: nat)
    requires i <= j <= |s| && AllSpace(s[..i]) && AllSpace(s[j..]) && n < |s|
    ensures n < i || n >= j ==> IsSpace(s[n])
  {
    hide IsSpace;
    if n < i {
      assert s[..i][n] == s[n];
    } else if n >= j {
      assert s[j..][n - j] == s[n];
    }
  }

  /** A middle starts and ends where the first and the last other character stand. */
  lemma MiddleEnds(r: string, s: string, i: nat, j: nat, k: nat, l: nat)
    requires i <= j <= |s| && AllSpace(s[..i]) && AllSpace(s[j..])
    requires k <= l <= |s| && r == s[k..l] && r != "" && !IsSpace(r[0]) && !IsSpace(r[|r| - 1])
    ensures i <= k && l <= j
  {
    hide IsSpace;
    hide AllSpace;
    assert r[0] == s[k] && r[|r| - 1] == s[l - 1];
    OutsideIsSpace(s, i, j, k);
    OutsideIsSpace(s, i, j, l - 1);
  }

  /** There is only one middle, and it is empty exactly when there is nothing but white space. */
  lemma MiddleIsUnique(r: string, r': string, s: string)
    requires IsMiddle(r, s) && IsMiddle(r', s)
    ensures r == r' && (r == "" <==> AllSpace(s))
  {
    hide IsSpace;
    hide AllSpace;
    var i, j :| 0 <= i <= j <= |s| && r == s[i..j] && AllSpace(s[..i]) && AllSpace(s[j..]);
    var k, l :| 0 <= k <= l <= |s| && r' == s[k..l] && AllSpace(s[..k]) && AllSpace(s[l..]);
    if r != "" {
      MiddleEnds(r, s, k, l, i, j);
    }
    if r' != "" {
      MiddleEnds(r', s, i, j, k, l);
    }
    NothingInTheMiddle(r, s, i, j);
    NothingInTheMiddle(r', s, k, l);
  }

  lemma NothingInTheMiddle(r: string, s: string, i: nat, j: nat)
    requires i <= j <= |s| && r == s[i..j] && AllSpace(s[..i]) && AllSpace(s[j..])
    requires r != "" ==> !IsSpace(r[0])
    ensures r == "" <==> AllSpace(s)
  {
    hide IsSpace;
    if r == "" {
      forall n | 0 <= n < |s| ensures IsSpace(s[n]) {
        OutsideIsSpace(s, i, j, n);
      }
    } else {
      assert r[0] == s[i];
    }
  }

  /** TrimSpace leaves exactly the trimmed strings alone. */
  lemma TrimFixesExactlyUntrimmed(s: string)
    ensures TrimSpace(s) == s <==> IsTrimmed(s)
  {
    if IsTrimmed(s) {
      assert s == s[0..|s|] && AllSpace(s[..0]) && AllSpace(s[|s|..]);
      MiddleIsUnique(TrimSpace(s), s, s);
    }
  }

  /** A rule text of its own, without its outer white space; the fallback, as it is, if there is none. */
  function NormalizeVmpRules(input: string, fallback: string): (r: string)
    ensures AllSpace(input) ==> r == fallback
    ensures !AllSpace(input) ==> r != "" && IsMiddle(r, input)
  {
    MiddleIsUnique(TrimSpace(input), TrimSpace(input), input);
    if TrimSpace(input) == "" then fallback else TrimSpace(input)
  }
}
