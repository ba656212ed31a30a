/** The engine command line, and a decoder that reads the effective flags back from it by position. */
module EngineCommand {
  import opened Wrappers
  import opened Strategy

  /** What the command is built from, beside the strategy. */
  datatype Paths = Paths(javaBin: string, jar: string, input: string, output: string, rules: string)

  /** The optional switches of dpt.jar. */
  datatype Switch =
    | Emulator | Root | Signature | Screenshot | FileIntegrity
    | Hook | Proxy | Strings | Assets | Vmp

  function Token(sw: Switch): string {
    match sw
    case Emulator => "--enable-emulator-detect"
    case Root => "--enable-root-detect"
    case Signature => "--enable-apk-sig-verify"
    case Screenshot => "--enable-screenshot-protect"
    case FileIntegrity => "--enable-file-integrity-check"
    case Hook => "--enable-hook-detect"
    case Proxy => "--enable-proxy-detect"
    case Strings => "--enable-string-encrypt"
    case Assets => "--enable-assets-encrypt"
    case Vmp => "--enable-vmp"
  }

  /** The arguments that follow the token of a switch that is on; None when the switch is off. */
  type Setting = Option<seq<string>>

  function SettingOf(flags: EffectiveFlags, rules: string, sw: Switch): Setting {
    match sw
    case Emulator => On(flags.emulatorDetect)
    case Root => On(flags.rootDetect)
    case Signature => if flags.sigVerify then Some(["--apk-sig-policy", flags.sigPolicy]) else None
    case Screenshot => On(flags.screenshotProtect)
    case FileIntegrity => On(flags.fileIntegrityCheck)
    case Hook => On(flags.hookDetect)
    case Proxy => On(flags.proxyDetect)
    case Strings => On(flags.stringEncrypt)
    case Assets => On(flags.assetsEncrypt)
    case Vmp => if flags.vmpEnabled then Some(["--vmp-rules", rules]) else None
  }

  function On(enabled: bool): Setting { if enabled then Some([]) else None }

  function Arity(sw: Switch): nat { if sw == Signature || sw == Vmp then 2 else 0 }

  /** The order in which BuildDPTCommand looks at the switches. */
  const ORDER: seq<Switch> :=
    [Emulator, Root, Signature, Screenshot, FileIntegrity, Hook, Proxy, Strings, Assets, Vmp]

  function Emit(sw: Switch, setting: Setting): seq<string> {
    if setting.Some? then [Token(sw)] + setting.value else []
  }

  function Encode(order: seq<Switch>, flags: EffectiveFlags, rules: string): seq<string> {
    if order == [] then []
    else Emit(order[0], SettingOf(flags, rules, order[0])) + Encode(order[1..], flags, rules)
  }

  /** The fixed head of every command: eight arguments, whatever the paths are. */
  function Head(p: Paths): (head: seq<string>)
    ensures |head| == 8
  {
    [if p.javaBin == "" then "java" else p.javaBin, "-jar", p.jar, "-f", p.input, "-o", p.output, "--no-sign"]
  }

  function Command(p: Paths, s: Strategy): seq<string> {
    Head(p) + Encode(ORDER, ResolveEffectiveFlags(s), p.rules)
  }

  // ---------------------------------------------------------------- the text

  function Opt(enabled: bool, args: seq<string>): seq<string> { if enabled then args else [] }

  /** What follows the head, straight from the switches of the strategy. */
  function Options(rules: string, s: Strategy): seq<string> {
    Opt(s.emulator, ["--enable-emulator-detect"]) + (
    Opt(s.rootDetect, ["--enable-root-detect"]) + (
    Opt(s.signature, ["--enable-apk-sig-verify", "--apk-sig-policy", if s.sigPolicy == "warn" then "warn" else "block"]) + (
    Opt(s.screenshotProtect, ["--enable-screenshot-protect"]) + (
    Opt(s.fileIntegrityCheck, ["--enable-file-integrity-check"]) + (
    Opt(s.antiHook || s.frida || s.xposed, ["--enable-hook-detect"]) + (
    Opt(s.proxyDetect, ["--enable-proxy-detect"]) + (
    Opt(s.stringEncrypt, ["--enable-string-encrypt"]) + (
    Opt(s.resEncrypt, ["--enable-assets-encrypt"]) +
    Opt(s.dexLevel == "high" || s.soShell == "vmp", ["--enable-vmp", "--vmp-rules", rules])))))))))
  }

  lemma EncodeFrom(n: nat, flags: EffectiveFlags, rules: string)
    requires n < |ORDER|
    ensures Encode(ORDER[n..], flags, rules)
         == Emit(ORDER[n], SettingOf(flags, rules, ORDER[n])) + Encode(ORDER[n + 1..], flags, rules)
  {
    hide Emit;
    hide SettingOf;
    assert ORDER[n..][0] == ORDER[n] && ORDER[n..][1..] == ORDER[n + 1..];
  }

  /** The table of switches, entry by entry. */
  lemma EntryText(s: Strategy, rules: string)
    ensures var f := ResolveEffectiveFlags(s);
      && Emit(Emulator, SettingOf(f, rules, Emulator)) == Opt(s.emulator, ["--enable-emulator-detect"])
      && Emit(Root, SettingOf(f, rules, Root)) == Opt(s.rootDetect, ["--enable-root-detect"])
      && Emit(Signature, SettingOf(f, rules, Signature))
         == Opt(s.signature, ["--enable-apk-sig-verify", "--apk-sig-policy", if s.sigPolicy == "warn" then "warn" else "block"])
      && Emit(Screenshot, SettingOf(f, rules, Screenshot)) == Opt(s.screenshotProtect, ["--enable-screenshot-protect"])
      && Emit(FileIntegrity, SettingOf(f, rules, FileIntegrity)) == Opt(s.fileIntegrityCheck, ["--enable-file-integrity-check"])
      && Emit(Hook, SettingOf(f, rules, Hook)) == Opt(s.antiHook || s.frida || s.xposed, ["--enable-hook-detect"])
      && Emit(Proxy, SettingOf(f, rules, Proxy)) == Opt(s.proxyDetect, ["--enable-proxy-detect"])
      && Emit(Strings, SettingOf(f, rules, Strings)) == Opt(s.stringEncrypt, ["--enable-string-encrypt"])
      && Emit(Assets, SettingOf(f, rules, Assets)) == Opt(s.resEncrypt, ["--enable-assets-encrypt"])
      && Emit(Vmp, SettingOf(f, rules, Vmp))
         == Opt(s.dexLevel == "high" || s.soShell == "vmp", ["--enable-vmp", "--vmp-rules", rules])
  {
  }

  /** The switches' encoding is that text. */
  lemma OptionsAreEncoding(s: Strategy, rules: string)
    ensures Encode(ORDER, ResolveEffectiveFlags(s), rules) == Options(rules, s)
  {
    hide Emit;
    hide SettingOf;
    hide Encode;
    hide Opt;
    hide ResolveEffectiveFlags;
    var f := ResolveEffectiveFlags(s);
    EntryText(s, rules);
    NothingFollows(f, rules);
    EncodeFrom(9, f, rules);
    EncodeFrom(8, f, rules);
    EncodeFrom(7, f, rules);
    EncodeFrom(6, f, rules);
    EncodeFrom(5, f, rules);
    EncodeFrom(4, f, rules);
    EncodeFrom(3, f, rules);
    EncodeFrom(2, f, rules);
    EncodeFrom(1, f, rules);
    EncodeFrom(0, f, rules);
    assert ORDER[0..] == ORDER;
    var last := Emit(Vmp, SettingOf(f, rules, Vmp));
    assert last + [] == last;
  }

  lemma NothingFollows(f: EffectiveFlags, rules: string)
    ensures Encode(ORDER[10..], f, rules) == []
  {
  }

  /** The whole command line, argument by argument; rule text and rule file come last, if at all. */
  lemma CommandText(p: Paths, s: Strategy)
    ensures var args := Command(p, s);
      && |args| >= 8 && args[0] == (if p.javaBin == "" then "java" else p.javaBin)
      && args[1] == "-jar" && args[2] == p.jar && args[3] == "-f" && args[4] == p.input
      && args[5] == "-o" && args[6] == p.output && args[7] == "--no-sign"
      && args[8..] == Options(p.rules, s)
  {
    hide Encode;
    hide Options;
    hide ResolveEffectiveFlags;
    OptionsAreEncoding(s, p.rules);
  }

  // ---------------------------------------------------------------- decoding

  /** Reads the switches in order: an argument is a token only where a token can stand. */
  function Decode(order: seq<Switch>, args: seq<string>): (settings: map<Switch, Setting>)
    ensures settings.Keys == set sw | sw in order
  {
    if order == [] then map[]
    else
      var sw := order[0];
      if args != [] && args[0] == Token(sw) && |args| > Arity(sw)
      then Decode(order[1..], args[1 + Arity(sw)..])[sw := Some(args[1..1 + Arity(sw)])]
      else Decode(order[1..], args)[sw := None]
  }

  function FlagsFrom(settings: map<Switch, Setting>): EffectiveFlags
    requires forall sw :: sw in settings
  {
    var policy := settings[Signature];
    EffectiveFlags(
      settings[Emulator].Some?, settings[Root].Some?, settings[Hook].Some?,
      policy.Some?, if policy.Some? && |policy.value| == 2 then policy.value[1] else "",
      settings[Strings].Some?, settings[Assets].Some?, settings[Vmp].Some?,
      settings[Screenshot].Some?, settings[FileIntegrity].Some?, settings[Proxy].Some?)
  }

  /** From a whole command line back to the flags, by argument position alone. */
  function DecodeFlags(args: seq<string>): EffectiveFlags
    requires |args| >= 8
  {
    OrderIsComplete();
    FlagsFrom(Decode(ORDER, args[8..]))
  }

  lemma OrderIsComplete()
    ensures forall sw: Switch :: sw in ORDER
    ensures forall i, j :: 0 <= i < j < |ORDER| ==> ORDER[i] != ORDER[j]
  {
    forall sw: Switch ensures sw in ORDER {
      var i := match sw
        case Emulator => 0 case Root => 1 case Signature => 2 case Screenshot => 3 case FileIntegrity => 4
        case Hook => 5 case Proxy => 6 case Strings => 7 case Assets => 8 case Vmp => 9;
      assert ORDER[i] == sw;
    }
  }

  // ---------------------------------------------------------------- building

  /** The append sequence of BuildDPTCommand, in three runs of tests. */
  method BuildDptCommand(p: Paths, s: Strategy) returns (args: seq<string>)
    ensures args == Command(p, s)
    ensures |args| >= 8 && args[0] == (if p.javaBin == "" then "java" else p.javaBin)
    ensures args[1] == "-jar" && args[2] == p.jar && args[3] == "-f" && args[4] == p.input
    ensures args[5] == "-o" && args[6] == p.output && args[7] == "--no-sign"
    ensures args[8..] == Options(p.rules, s)
  {
    hide Token;
    hide Encode;
    hide Options;
    hide ResolveEffectiveFlags;
    CommandText(p, s);
    var javaBin := p.javaBin;
    if javaBin == "" {
      javaBin := "java";
    }
    args := [javaBin, "-jar", p.jar, "-f", p.input, "-o", p.output, "--no-sign"];
    var flags := ResolveEffectiveFlags(s);
    EncodeNothing(p, flags);
    args := AppendDetection(p, flags, args);
    args := AppendIntegrity(p, flags, args);
    args := AppendEncryption(p, flags, args);
    EncodeAll(p, s);
  }

  method AppendDetection(p: Paths, flags: EffectiveFlags, fixed: seq<string>) returns (args: seq<string>)
    requires fixed == Partial(p, 0, flags)
    ensures args == Partial(p, 4, flags)
  {
    hide Token;
    hide Encode;
    hide Partial;
    args := fixed;
    EncodeNext(p, 0, Emulator, flags, args);
    if flags.emulatorDetect {
      args := args + [Token(Emulator)];
    }
    assert args == Partial(p, 1, flags);
    EncodeNext(p, 1, Root, flags, args);
    if flags.rootDetect {
      args := args + [Token(Root)];
    }
    assert args == Partial(p, 2, flags);
    EncodeNext(p, 2, Signature, flags, args);
    if flags.sigVerify {
      args := args + [Token(Signature), "--apk-sig-policy", flags.sigPolicy];
    }
    assert args == Partial(p, 3, flags);
    EncodeNext(p, 3, Screenshot, flags, args);
    if flags.screenshotProtect {
      args := args + [Token(Screenshot)];
    }
    assert args == Partial(p, 4, flags);
  }

  method AppendIntegrity(p: Paths, flags: EffectiveFlags, before: seq<string>) returns (args: seq<string>)
    requires before == Partial(p, 4, flags)
    ensures args == Partial(p, 7, flags)
  {
    hide Token;
    hide Encode;
    hide Partial;
    args := before;
    EncodeNext(p, 4, FileIntegrity, flags, args);
    if flags.fileIntegrityCheck {
      args := args + [Token(FileIntegrity)];
    }
    assert args == Partial(p, 5, flags);
    EncodeNext(p, 5, Hook, flags, args);
    if flags.hookDetect {
      args := args + [Token(Hook)];
    }
    assert args == Partial(p, 6, flags);
    EncodeNext(p, 6, Proxy, flags, args);
    if flags.proxyDetect {
      args := args + [Token(Proxy)];
    }
    assert args == Partial(p, 7, flags);
  }

  method AppendEncryption(p: Paths, flags: EffectiveFlags, before: seq<string>) returns (args: seq<string>)
    requires before == Partial(p, 7, flags)
    ensures args == Partial(p, 10, flags)
  {
    hide Token;
    hide Encode;
    hide Partial;
    args := before;
    EncodeNext(p, 7, Strings, flags, args);
    if flags.stringEncrypt {
      args := args + [Token(Strings)];
    }
    assert args == Partial(p, 8, flags);
    EncodeNext(p, 8, Assets, flags, args);
    if flags.assetsEncrypt {
      args := args + [Token(Assets)];
    }
    assert args == Partial(p, 9, flags);
    EncodeNext(p, 9, Vmp, flags, args);
    if flags.vmpEnabled {
      args := args + [Token(Vmp), "--vmp-rules", p.rules];
    }
    assert args == Partial(p, 10, flags);
  }

  /** The command after the first n switches have been looked at. */
  function Partial(p: Paths, n: nat, flags: EffectiveFlags): seq<string>
    requires n <= |ORDER|
  {
    Head(p) + Encode(ORDER[..n], flags, p.rules)
  }

  lemma EncodeNothing(p: Paths, flags: EffectiveFlags)
    ensures Partial(p, 0, flags) == Head(p)
  {
  }

  lemma EncodeAll(p: Paths, s: Strategy)
    ensures Partial(p, 10, ResolveEffectiveFlags(s)) == Command(p, s)
  {
    assert ORDER[..10] == ORDER;
  }

  /** One conditional append advances the encoding by one switch. */
  lemma EncodeNext(p: Paths, n: nat, sw: Switch, flags: EffectiveFlags, args: seq<string>)
    requires n < |ORDER| && ORDER[n] == sw
    requires args == Partial(p, n, flags)
    ensures var setting := SettingOf(flags, p.rules, sw);
      && (setting.None? ==> Partial(p, n + 1, flags) == args)
      && (setting.Some? ==> Partial(p, n + 1, flags) == args + ([Token(sw)] + setting.value))
  {
    hide Token;
    hide Head;
    hide Encode;
    hide SettingOf;
    EncodeSnoc(ORDER[..n], sw, flags, p.rules);
    assert ORDER[..n + 1] == ORDER[..n] + [sw];
    AppendAssociates(Head(p), Encode(ORDER[..n], flags, p.rules), Emit(sw, SettingOf(flags, p.rules, sw)));
  }

  lemma AppendAssociates(a: seq<string>, b: seq<string>, c: seq<string>)
    ensures a + (b + c) == (a + b) + c
  {
  }

  lemma {:induction false} EncodeSnoc(order: seq<Switch>, sw: Switch, flags: EffectiveFlags, rules: string)
    ensures Encode(order + [sw], flags, rules)
         == Encode(order, flags, rules) + Emit(sw, SettingOf(flags, rules, sw))
  {
    hide Emit;
    hide SettingOf;
    if order == [] {
      assert [] + [sw] == [sw] && [sw][1..] == [];
    } else {
      var rest := order[1..];
      EncodeSnoc(rest, sw, flags, rules);
      assert (order + [sw])[1..] == rest + [sw] && (order + [sw])[0] == order[0];
      AppendAssociates(Emit(order[0], SettingOf(flags, rules, order[0])), Encode(rest, flags, rules),
                       Emit(sw, SettingOf(flags, rules, sw)));
    }
  }

  // ---------------------------------------------------------------- inversion

  /** Three readings that tell the ten tokens apart. */
  function Fingerprint(token: string): (int, char, char) {
    if |token| > 10 then (|token|, token[9], token[10]) else (0, ' ', ' ')
  }

  lemma TokenFingerprint(sw: Switch)
    ensures Fingerprint(Token(sw)) == match sw
      case Emulator => (24, 'e', 'm')
      case Root => (20, 'r', 'o')
      case Signature => (23, 'a', 'p')
      case Screenshot => (27, 's', 'c')
      case FileIntegrity => (29, 'f', 'i')
      case Hook => (20, 'h', 'o')
      case Proxy => (21, 'p', 'r')
      case Strings => (23, 's', 't')
      case Assets => (23, 'a', 's')
      case Vmp => (12, 'v', 'm')
  {
  }

  lemma TokenInjective(a: Switch, b: Switch)
    requires Token(a) == Token(b)
    ensures a == b
  {
    TokenFingerprint(a);
    TokenFingerprint(b);
  }

  /** The first argument of an encoding is the token of one of its switches, never a value. */
  lemma {:induction false} EncodeStartsWithToken(order: seq<Switch>, flags: EffectiveFlags, rules: string)
    ensures Encode(order, flags, rules) == []
         || exists sw :: sw in order && Encode(order, flags, rules)[0] == Token(sw)
  {
    if order != [] {
      if SettingOf(flags, rules, order[0]).None? {
        EncodeStartsWithToken(order[1..], flags, rules);
        assert Encode(order, flags, rules) == Encode(order[1..], flags, rules);
      } else {
        assert order[0] in order && Encode(order, flags, rules)[0] == Token(order[0]);
      }
    }
  }

  lemma SettingArity(flags: EffectiveFlags, rules: string, sw: Switch)
    ensures SettingOf(flags, rules, sw).Some? ==> |SettingOf(flags, rules, sw).value| == Arity(sw)
  {
  }

  lemma EncodeCons(order: seq<Switch>, flags: EffectiveFlags, rules: string)
    requires order != []
    ensures var setting, args, rest := SettingOf(flags, rules, order[0]),
                                       Encode(order, flags, rules), Encode(order[1..], flags, rules);
      && (setting.None? ==> args == rest)
      && (setting.Some? ==> |args| == 1 + |setting.value| + |rest| && args[0] == Token(order[0])
                            && args[1..1 + |setting.value|] == setting.value
                            && args[1 + |setting.value|..] == rest)
  {
    hide Token;
    hide SettingOf;
  }

  /** Decoding inverts encoding even when a path or a policy spells a token. */
  lemma {:induction false} DecodeInverts(order: seq<Switch>, flags: EffectiveFlags, rules: string)
    requires forall i, j :: 0 <= i < j < |order| ==> order[i] != order[j]
    ensures Decode(order, Encode(order, flags, rules))
         == map sw | sw in order :: SettingOf(flags, rules, sw)
  {
    hide Token;
    hide SettingOf;
    if order != [] {
      var sw, rest := order[0], Encode(order[1..], flags, rules);
      DecodeInverts(order[1..], flags, rules);
      SettingArity(flags, rules, sw);
      EncodeCons(order, flags, rules);
      if SettingOf(flags, rules, sw).None? {
        EncodeStartsWithToken(order[1..], flags, rules);
        if rest != [] && rest[0] == Token(sw) {
          var other :| other in order[1..] && rest[0] == Token(other);
          TokenInjective(sw, other);
          assert false;
        }
      }
    }
  }

  /** The settings of all switches determine the flags. */
  lemma FlagsFromSettings(flags: EffectiveFlags, rules: string, settings: map<Switch, Setting>)
    requires !flags.sigVerify ==> flags.sigPolicy == ""
    requires forall sw :: sw in settings && settings[sw] == SettingOf(flags, rules, sw)
    ensures FlagsFrom(settings) == flags
  {
  }

  lemma DropHead(p: Paths, tail: seq<string>)
    ensures (Head(p) + tail)[8..] == tail
  {
    hide Head;
  }

  lemma CommandDecodes(p: Paths, s: Strategy)
    ensures |Command(p, s)| >= 8 && DecodeFlags(Command(p, s)) == ResolveEffectiveFlags(s)
  {
    hide Token;
    hide SettingOf;
    hide Encode;
    hide Decode;
    hide FlagsFrom;
    hide Head;
    var flags := ResolveEffectiveFlags(s);
    OrderIsComplete();
    DecodeInverts(ORDER, flags, p.rules);
    DropHead(p, Encode(ORDER, flags, p.rules));
    FlagsFromSettings(flags, p.rules, Decode(ORDER, Encode(ORDER, flags, p.rules)));
  }

  /** For any fixed paths the argument list and the effective flags carry the same information. */
  lemma CommandFaithful(p: Paths, s: Strategy, t: Strategy)
    ensures Command(p, s) == Command(p, t) <==> ResolveEffectiveFlags(s) == ResolveEffectiveFlags(t)
  {
    CommandDecodes(p, s);
    CommandDecodes(p, t);
  }
}
