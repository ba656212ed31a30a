/** The strategy table has no unique index and its service takes no lock: a call looks up and validates
    first and writes later, and other calls may write in between. */
module StrategyRaces {
  import opened Wrappers
  import opened Strategy
  import opened StrategyLibrary

  /** A write that the first half of a call has decided on; id 0 asks for a fresh id. */
  datatype Write = Write(id: nat, row: StrategyRow)

  /** The first half of a call that stores a row. */
  function Decided(lib: Library, call: Call): Option<Write> {
    match call
    case GetCurrent(_) =>
      var first := FirstRow(lib.rows, false, 0, lib.nextId);
      if Default(lib).Some? || first.None? then None
      else Some(Write(first.value, lib.rows[first.value].(name := DEFAULT_NAME, isDefault := true)))
    case SaveCurrent(content, user, _) =>
      if ValidateFields(content).Some? then None
      else
        var d := Default(lib);
        var creator := if d.Some? then lib.rows[d.value].createdBy else user;
        Some(Write(if d.Some? then d.value else 0, StrategyRow(DEFAULT_NAME, "", true, content, creator, user)))
    case Create(p, user, _) =>
      if ValidatePayload(lib, p, 0).Some? then None
      else Some(Write(0, StrategyRow(TrimSpace(p.name), TrimSpace(p.description), false, p.content, user, user)))
    case Update(id, p, user, _) =>
      if id !in lib.rows || lib.rows[id].isDefault || ValidatePayload(lib, p, id).Some? then None
      else Some(Write(id, StrategyRow(TrimSpace(p.name), TrimSpace(p.description), false, p.content,
                                      lib.rows[id].createdBy, user)))
    case Delete(_, _) => None
  }

  /** The second half, on the table as it is by then: an insert, or a save under the id that was looked up,
      which inserts the row again if it was deleted meanwhile. */
  function Written(lib: Library, w: Write): Library {
    if w.id == 0 then Library(lib.rows[lib.nextId := w.row], lib.nextId + 1) else lib.(rows := lib.rows[w.id := w.row])
  }

  /** Both halves in one go are the call. */
  lemma CallIsBothHalves(lib: Library, call: Call)
    requires LibraryOk(lib) && !call.Delete? && !call.fault
    ensures Perform(lib, call).0 == if Decided(lib, call).Some? then Written(lib, Decided(lib, call).value) else lib
  {
    hide ValidateFields;
    hide ValidatePayload;
    hide TrimSpace;
    hide IsTrimmed;
  }

  /** What the lookup and the name check asked for, asked at the time of the write. */
  predicate StillFree(lib: Library, w: Write) {
    if w.row.isDefault then forall i :: i in lib.rows && lib.rows[i].isDefault ==> i == w.id
    else !Taken(lib, w.row.name, w.id)
  }

  predicate Sound(w: Write, nextId: nat) {
    w.id < nextId && (!w.row.isDefault ==> w.row.name != "" && IsTrimmed(w.row.name))
  }

  lemma DecidedIsSound(lib: Library, call: Call)
    requires LibraryOk(lib) && Decided(lib, call).Some?
    ensures Sound(Decided(lib, call).value, lib.nextId)
  {
    hide ValidateFields;
    hide ValidatePayload;
    hide TrimSpace;
    hide IsTrimmed;
    match call
    case Create(p, _, _) => ValidNameIsFree(lib, p, 0);
    case Update(id, p, _, _) => ValidNameIsFree(lib, p, id);
    case _ =>
  }

  /** A late write keeps the library in order if and only if what it was decided on still holds. */
  lemma LateWriteIff(lib: Library, w: Write)
    requires LibraryOk(lib) && Sound(w, lib.nextId)
    ensures LibraryOk(Written(lib, w)) <==> StillFree(lib, w)
  {
    hide IsTrimmed;
    var id, nextId := if w.id == 0 then lib.nextId else w.id, if w.id == 0 then lib.nextId + 1 else lib.nextId;
    if StillFree(lib, w) {
      StoringKeepsLibraryOk(lib, id, w.row, nextId);
    } else if w.row.isDefault {
      var i :| i in lib.rows && lib.rows[i].isDefault && i != w.id;
      assert i in Written(lib, w).rows && id in Written(lib, w).rows;
    } else {
      var i :| i in lib.rows && !lib.rows[i].isDefault && lib.rows[i].name == w.row.name && (w.id > 0 ==> i != w.id);
      assert i in Written(lib, w).rows && id in Written(lib, w).rows;
    }
  }

  lemma RemovalKeepsOrder(lib: Library, id: nat)
    requires LibraryOk(lib)
    ensures LibraryOk(lib.(rows := lib.rows - {id}))
  {
    hide IsTrimmed;
  }

  // ---------------------------------------------------------------- interleaved calls

  /** Halves of calls: a decision, the landing of the n-th decided write, and the statement of a delete. */
  datatype Half = Decide(call: Call) | Land(n: nat) | Remove(id: nat)

  datatype Office = Office(lib: Library, decided: seq<Write>)

  function Next(o: Office, h: Half): Office {
    match h
    case Decide(call) =>
      var w := Decided(o.lib, call);
      if w.Some? then o.(decided := o.decided + [w.value]) else o
    case Land(n) => if n < |o.decided| then o.(lib := Written(o.lib, o.decided[n])) else o
    case Remove(id) => o.(lib := o.lib.(rows := o.lib.rows - {id}))
  }

  function After(halves: seq<Half>): Office
    decreases |halves|
  {
    if halves == [] then Office(EMPTY, []) else Next(After(halves[..|halves| - 1]), halves[|halves| - 1])
  }

  /** The landing of a write that by then was no longer free to land. */
  predicate Clashes(halves: seq<Half>, k: nat) {
    k < |halves| && halves[k].Land?
    && var o := After(halves[..k]);
       halves[k].n < |o.decided| && !StillFree(o.lib, o.decided[halves[k].n])
  }

  ghost predicate OfficeOk(o: Office) {
    LibraryOk(o.lib) && forall n :: 0 <= n < |o.decided| ==> Sound(o.decided[n], o.lib.nextId)
  }

  lemma HalfIff(o: Office, h: Half)
    requires OfficeOk(o)
    ensures OfficeOk(Next(o, h)) <==> LibraryOk(Next(o, h).lib)
    ensures LibraryOk(Next(o, h).lib) <==>
      !(h.Land? && h.n < |o.decided| && !StillFree(o.lib, o.decided[h.n]))
  {
    hide LibraryOk;
    hide StillFree;
    hide Decided;
    match h
    case Decide(call) =>
      if Decided(o.lib, call).Some? {
        DecidedIsSound(o.lib, call);
      }
    case Land(n) =>
      if n < |o.decided| {
        LateWriteIff(o.lib, o.decided[n]);
      }
    case Remove(id) => RemovalKeepsOrder(o.lib, id);
  }

  lemma {:induction false} OrderedUntilClash(halves: seq<Half>, n: nat)
    requires n <= |halves| && forall k: nat :: k < n ==> !Clashes(halves, k)
    ensures OfficeOk(After(halves[..n]))
    decreases n
  {
    hide Next;
    hide StillFree;
    if n > 0 {
      OrderedUntilClash(halves, n - 1);
      assert halves[..n][..n - 1] == halves[..n - 1] && halves[..n][n - 1] == halves[n - 1];
      assert !Clashes(halves, n - 1);
      HalfIff(After(halves[..n - 1]), halves[n - 1]);
    } else {
      assert halves[..0] == [];
    }
  }

  /** Of all interleavings of all calls exactly those keep at most one default row and distinct regular names
      throughout in which no write lands on a table that no longer has room for it. */
  lemma InterleavingKeepsOrderIff(halves: seq<Half>)
    ensures (forall n :: 0 <= n <= |halves| ==> LibraryOk(After(halves[..n]).lib))
      <==> forall k: nat :: !Clashes(halves, k)
  {
    hide After;
    hide LibraryOk;
    hide StillFree;
    hide Next;
    if forall k: nat :: !Clashes(halves, k) {
      forall n | 0 <= n <= |halves| ensures LibraryOk(After(halves[..n]).lib) {
        OrderedUntilClash(halves, n);
      }
    } else {
      var k: nat :| Clashes(halves, k);
      FirstClashBreaks(halves, k);
    }
  }

  lemma {:induction false} FirstClashBreaks(halves: seq<Half>, k: nat)
    requires Clashes(halves, k)
    ensures exists n :: 0 <= n <= |halves| && !LibraryOk(After(halves[..n]).lib)
    decreases k
  {
    hide LibraryOk;
    hide StillFree;
    hide Next;
    if j: nat :| j < k && Clashes(halves, j) {
      FirstClashBreaks(halves, j);
    } else {
      OrderedUntilClash(halves, k);
      HalfIff(After(halves[..k]), halves[k]);
      assert halves[..k + 1][..k] == halves[..k] && halves[..k + 1][k] == halves[k];
      assert !LibraryOk(After(halves[..k + 1]).lib);
    }
  }

  // ---------------------------------------------------------------- two interleavings that clash

  /** Two creates of one name that both check before either inserts: two regular rows of that name. */
  lemma TwoCreatesClash(p: Payload, user: nat, other: nat) returns (halves: seq<Half>)
    requires ValidatePayload(EMPTY, p, 0).None?
    ensures |halves| == 4 && !LibraryOk(After(halves).lib)
  {
    hide ValidateFields;
    hide TrimSpace;
    hide IsTrimmed;
    var one, two := Create(p, user, false), Create(p, other, false);
    halves := [Decide(one), Decide(two), Land(0), Land(1)];
    FourHalves(halves);
    var rows := After(halves).lib.rows;
    assert 1 in rows && 2 in rows && rows[1].name == rows[2].name;
  }

  /** Two first saves of the current strategy that both look before either inserts: two default rows. */
  lemma TwoFirstSavesClash(content: Strategy, user: nat, other: nat) returns (halves: seq<Half>)
    requires ValidateFields(content).None?
    ensures |halves| == 4 && !LibraryOk(After(halves).lib)
  {
    hide ValidateFields;
    hide IsTrimmed;
    var one, two := SaveCurrent(content, user, false), SaveCurrent(content, other, false);
    halves := [Decide(one), Decide(two), Land(0), Land(1)];
    FourHalves(halves);
    var rows := After(halves).lib.rows;
    assert 1 in rows && 2 in rows && rows[1].isDefault && rows[2].isDefault;
  }

  lemma FourHalves(halves: seq<Half>)
    requires |halves| == 4
    ensures After(halves)
         == Next(Next(Next(Next(Office(EMPTY, []), halves[0]), halves[1]), halves[2]), halves[3])
  {
    hide Next;
    assert halves[..3][..2] == halves[..2] && halves[..2][..1] == halves[..1] && halves[..1][..0] == [];
    assert After(halves[..1]) == Next(Office(EMPTY, []), halves[0]);
    assert After(halves[..2]) == Next(After(halves[..1]), halves[1]);
    assert After(halves[..3]) == Next(After(halves[..2]), halves[2]);
  }
}
