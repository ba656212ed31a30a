/** The strategy table behind its service: one optional default row and a collection of named rows. */
module StrategyLibrary {
  import opened Wrappers
  import opened Strategy

  const DEFAULT_NAME := "默认加固策略"

  datatype StrategyRow = StrategyRow(
    name: string, description: string, isDefault: bool, content: Strategy, createdBy: nat, updatedBy: nat)

  /** The table and its id sequence; ids start at 1 and are never reused. */
  datatype Library = Library(rows: map<nat, StrategyRow>, nextId: nat)

  datatype StrategyError =
    | InvalidDexLevel | InvalidSoShell | InvalidSoStrength | InvalidSigPolicy
    | StrategyNotFound | NameRequired | NameExists | DefaultDelete | DatabaseError

  datatype Outcome<+T> = Ok(value: T) | Err(error: StrategyError)

  datatype Payload = Payload(name: string, description: string, content: Strategy)

  const EMPTY := Library(map[], 1)

  /** The "finance" template, shown while the table is empty. */
  const FINANCE := Strategy(
    true, true, true, DEX_HIGH, true, true, SO_VMP, 90, ["libnative-lib.so", "libsec.so"],
    true, true, SIG_BLOCK, true, true, true, true, true, "")

  // ---------------------------------------------------------------- queries

  /** ORDER BY id ASC LIMIT 1, over the rows (or only the default rows) with ids in from..bound. */
  function FirstRow(rows: map<nat, StrategyRow>, defaultsOnly: bool, from: nat, bound: nat): (r: Option<nat>)
    ensures r.Some? ==>
      && from <= r.value < bound && r.value in rows && (defaultsOnly ==> rows[r.value].isDefault)
      && forall i :: from <= i < r.value && i in rows ==> defaultsOnly && !rows[i].isDefault
    ensures r.None? ==> forall i :: from <= i < bound && i in rows ==> defaultsOnly && !rows[i].isDefault
    decreases bound - from
  {
    if from >= bound then None
    else if from in rows && (defaultsOnly ==> rows[from].isDefault) then Some(from)
    else FirstRow(rows, defaultsOnly, from + 1, bound)
  }

  function Default(lib: Library): Option<nat> { FirstRow(lib.rows, true, 0, lib.nextId) }

  predicate Taken(lib: Library, name: string, exclude: nat) {
    exists i :: i in lib.rows && !lib.rows[i].isDefault && lib.rows[i].name == name && (exclude > 0 ==> i != exclude)
  }

  function ValidateFields(s: Strategy): Option<StrategyError> {
    if s.dexLevel != DEX_LOW && s.dexLevel != DEX_MEDIUM && s.dexLevel != DEX_HIGH then Some(InvalidDexLevel)
    else if s.soShell != SO_NONE && s.soShell != SO_VMP then Some(InvalidSoShell)
    else if s.soStrength < 0 || s.soStrength > 100 then Some(InvalidSoStrength)
    else if s.sigPolicy != SIG_WARN && s.sigPolicy != SIG_BLOCK then Some(InvalidSigPolicy)
    else None
  }

  /** What a strategy must look like to be stored. */
  predicate FieldsOk(c: Strategy) {
    && (c.dexLevel == "low" || c.dexLevel == "medium" || c.dexLevel == "high")
    && (c.soShell == "none" || c.soShell == "vmp")
    && 0 <= c.soStrength <= 100
    && (c.sigPolicy == "warn" || c.sigPolicy == "block")
  }

  /** e names the first field of c that is not as it must be. */
  predicate FirstFault(c: Strategy, e: StrategyError) {
    var dex := c.dexLevel == "low" || c.dexLevel == "medium" || c.dexLevel == "high";
    var shell := c.soShell == "none" || c.soShell == "vmp";
    var strength := 0 <= c.soStrength <= 100;
    match e
    case InvalidDexLevel => !dex
    case InvalidSoShell => dex && !shell
    case InvalidSoStrength => dex && shell && !strength
    case InvalidSigPolicy => dex && shell && strength && c.sigPolicy != "warn" && c.sigPolicy != "block"
    case _ => false
  }

  lemma FieldsAreChecked(c: Strategy)
    ensures ValidateFields(c).None? <==> FieldsOk(c)
    ensures ValidateFields(c).Some? ==> FirstFault(c, ValidateFields(c).value)
  {
  }

  function ValidatePayload(lib: Library, p: Payload, exclude: nat): Option<StrategyError> {
    if TrimSpace(p.name) == "" then Some(NameRequired)
    else if ValidateFields(p.content).Some? then ValidateFields(p.content)
    else if Taken(lib, TrimSpace(p.name), exclude) then Some(NameExists)
    else None
  }

  /** No other regular row has the name; rows under id `exclude` do not count unless that is 0. */
  predicate NameFree(rows: map<nat, StrategyRow>, name: string, exclude: nat) {
    forall i :: i in rows && !rows[i].isDefault && rows[i].name == name ==> exclude > 0 && i == exclude
  }

  lemma PayloadIsChecked(lib: Library, p: Payload, exclude: nat)
    ensures ValidatePayload(lib, p, exclude).None? <==>
      !AllSpace(p.name) && FieldsOk(p.content) && NameFree(lib.rows, TrimSpace(p.name), exclude)
    ensures ValidatePayload(lib, p, exclude).Some? ==>
      var e := ValidatePayload(lib, p, exclude).value;
      if AllSpace(p.name) then e == NameRequired
      else if !FieldsOk(p.content) then FirstFault(p.content, e)
      else e == NameExists
  {
    hide TrimSpace;
    hide FieldsOk;
    hide ValidateFields;
    hide FirstFault;
    FieldsAreChecked(p.content);
    MiddleIsUnique(TrimSpace(p.name), TrimSpace(p.name), p.name);
  }

  // ---------------------------------------------------------------- calls

  /** One service call with its arguments; `fault` is an error of its final database write. */
  datatype Call =
    | GetCurrent(fault: bool)
    | SaveCurrent(content: Strategy, user: nat, fault: bool)
    | Create(payload: Payload, user: nat, fault: bool)
    | Update(id: nat, payload: Payload, user: nat, fault: bool)
    | Delete(id: nat, fault: bool)

  /** Table and answer after a call; the answer of a delete is its id only. */
  function Perform(lib: Library, call: Call): (Library, Outcome<(nat, StrategyRow)>) {
    match call
    case GetCurrent(fault) => GettingCurrent(lib, fault)
    case SaveCurrent(content, user, fault) => SavingCurrent(lib, content, user, fault)
    case Create(payload, user, fault) => Creating(lib, payload, user, fault)
    case Update(id, payload, user, fault) => Updating(lib, id, payload, user, fault)
    case Delete(id, fault) => Deleting(lib, id, fault)
  }

  function GettingCurrent(lib: Library, fault: bool): (Library, Outcome<(nat, StrategyRow)>) {
    match Default(lib)
    case Some(d) => (lib, Ok((d, lib.rows[d])))
    case None =>
      match FirstRow(lib.rows, false, 0, lib.nextId)
      case None => (lib, Ok((0, StrategyRow(DEFAULT_NAME, "", true, FINANCE, 0, 0))))
      case Some(i) =>
        var row := lib.rows[i].(name := DEFAULT_NAME, isDefault := true);
        if fault then (lib, Err(DatabaseError)) else (lib.(rows := lib.rows[i := row]), Ok((i, row)))
  }

  function SavingCurrent(lib: Library, content: Strategy, user: nat, fault: bool): (Library, Outcome<(nat, StrategyRow)>) {
    if ValidateFields(content).Some? then (lib, Err(ValidateFields(content).value))
    else if fault then (lib, Err(DatabaseError))
    else
      match Default(lib)
      case Some(d) =>
        var row := StrategyRow(DEFAULT_NAME, "", true, content, lib.rows[d].createdBy, user);
        (lib.(rows := lib.rows[d := row]), Ok((d, row)))
      case None =>
        var row := StrategyRow(DEFAULT_NAME, "", true, content, user, user);
        (Library(lib.rows[lib.nextId := row], lib.nextId + 1), Ok((lib.nextId, row)))
  }

  function Creating(lib: Library, p: Payload, user: nat, fault: bool): (Library, Outcome<(nat, StrategyRow)>) {
    var refused := ValidatePayload(lib, p, 0);
    if refused.Some? then (lib, Err(refused.value))
    else if fault then (lib, Err(DatabaseError))
    else
      var row := StrategyRow(TrimSpace(p.name), TrimSpace(p.description), false, p.content, user, user);
      (Library(lib.rows[lib.nextId := row], lib.nextId + 1), Ok((lib.nextId, row)))
  }

  function Updating(lib: Library, id: nat, p: Payload, user: nat, fault: bool): (Library, Outcome<(nat, StrategyRow)>) {
    if id !in lib.rows || lib.rows[id].isDefault then (lib, Err(StrategyNotFound))
    else
      var refused := ValidatePayload(lib, p, id);
      if refused.Some? then (lib, Err(refused.value))
      else if fault then (lib, Err(DatabaseError))
      else
        var row := StrategyRow(TrimSpace(p.name), TrimSpace(p.description), false, p.content, lib.rows[id].createdBy, user);
        (lib.(rows := lib.rows[id := row]), Ok((id, row)))
  }

  function Deleting(lib: Library, id: nat, fault: bool): (Library, Outcome<(nat, StrategyRow)>) {
    if id !in lib.rows then (lib, Err(StrategyNotFound))
    else if lib.rows[id].isDefault then (lib, Err(DefaultDelete))
    else if fault then (lib, Err(DatabaseError))
    else (lib.(rows := lib.rows - {id}), Ok((id, lib.rows[id])))
  }

  // ---------------------------------------------------------------- the service

  class StrategyService {
    var rows: map<nat, StrategyRow>
    var nextId: nat

    constructor ()
      ensures Contents() == EMPTY
    {
      rows, nextId := map[], 1;
    }

    function Contents(): Library
      reads this
    {
      Library(rows, nextId)
    }

    method GetCurrent(fault: bool) returns (r: Outcome<(nat, StrategyRow)>)
      modifies this
      ensures (Contents(), r) == Perform(old(Contents()), Call.GetCurrent(fault))
    {
      var current := FirstRow(rows, true, 0, nextId);
      if current.Some? {
        return Ok((current.value, rows[current.value]));
      }
      var legacy := FirstRow(rows, false, 0, nextId);
      if legacy.None? {
        return Ok((0, StrategyRow(DEFAULT_NAME, "", true, FINANCE, 0, 0)));
      }
      var strategy := rows[legacy.value];
      strategy := strategy.(name := DEFAULT_NAME);
      strategy := strategy.(isDefault := true);
      if fault {
        return Err(DatabaseError);
      }
      rows := rows[legacy.value := strategy];
      r := Ok((legacy.value, strategy));
    }

    method SaveCurrent(content: Strategy, user: nat, fault: bool) returns (r: Outcome<(nat, StrategyRow)>)
      modifies this
      ensures (Contents(), r) == Perform(old(Contents()), Call.SaveCurrent(content, user, fault))
      ensures r.Ok? <==> FieldsOk(content) && !fault
      ensures r.Err? ==> Contents() == old(Contents())
    {
      FieldsAreChecked(content);
      var refused := ValidateFields(content);
      if refused.Some? {
        return Err(refused.value);
      }
      var strategy := StrategyRow(DEFAULT_NAME, "", true, content, user, user);
      var existing := FirstRow(rows, true, 0, nextId);
      if fault {
        return Err(DatabaseError);
      }
      var id := nextId;
      if existing.Some? {
        id := existing.value;
        strategy := strategy.(createdBy := rows[id].createdBy);
      } else {
        nextId := nextId + 1;
      }
      rows := rows[id := strategy];
      r := Ok((id, strategy));
    }

    method Create(payload: Payload, user: nat, fault: bool) returns (r: Outcome<(nat, StrategyRow)>)
      modifies this
      ensures (Contents(), r) == Perform(old(Contents()), Call.Create(payload, user, fault))
      ensures r.Ok? <==>
        !AllSpace(payload.name) && FieldsOk(payload.content) && !fault && NameFree(old(rows), TrimSpace(payload.name), 0)
      ensures r.Err? ==> Contents() == old(Contents())
    {
      hide ValidatePayload;
      hide TrimSpace;
      hide FieldsOk;
      hide FirstFault;
      hide NameFree;
      hide AllSpace;
      hide IsMiddle;
      PayloadIsChecked(Contents(), payload, 0);
      var refused := ValidatePayload(Contents(), payload, 0);
      if refused.Some? {
        return Err(refused.value);
      }
      if fault {
        return Err(DatabaseError);
      }
      var strategy := StrategyRow(TrimSpace(payload.name), TrimSpace(payload.description), false, payload.content, user, user);
      rows := rows[nextId := strategy];
      r := Ok((nextId, strategy));
      nextId := nextId + 1;
    }

    method Update(id: nat, payload: Payload, user: nat, fault: bool) returns (r: Outcome<(nat, StrategyRow)>)
      modifies this
      ensures (Contents(), r) == Perform(old(Contents()), Call.Update(id, payload, user, fault))
      ensures r.Ok? <==>
        && id in old(rows) && !old(rows)[id].isDefault
        && !AllSpace(payload.name) && FieldsOk(payload.content) && !fault && NameFree(old(rows), TrimSpace(payload.name), id)
      ensures r.Err? ==> Contents() == old(Contents())
    {
      hide ValidatePayload;
      hide TrimSpace;
      hide FieldsOk;
      hide FirstFault;
      hide NameFree;
      hide AllSpace;
      hide IsMiddle;
      PayloadIsChecked(Contents(), payload, id);
      if id !in rows || rows[id].isDefault {
        return Err(StrategyNotFound);
      }
      var existing := rows[id];
      var refused := ValidatePayload(Contents(), payload, id);
      if refused.Some? {
        return Err(refused.value);
      }
      existing := existing.(name := TrimSpace(payload.name));
      existing := existing.(description := TrimSpace(payload.description));
      existing := existing.(content := payload.content);
      existing := existing.(updatedBy := user);
      if fault {
        return Err(DatabaseError);
      }
      existing := existing.(isDefault := false);
      rows := rows[id := existing];
      r := Ok((id, existing));
    }

    method Delete(id: nat, fault: bool) returns (r: Outcome<(nat, StrategyRow)>)
      modifies this
      ensures (Contents(), r) == Perform(old(Contents()), Call.Delete(id, fault))
      ensures r.Ok? <==> id in old(rows) && !old(rows)[id].isDefault && !fault
      ensures rows == (if r.Ok? then old(rows) - {id} else old(rows)) && nextId == old(nextId)
    {
      if id !in rows {
        return Err(StrategyNotFound);
      }
      if rows[id].isDefault {
        return Err(DefaultDelete);
      }
      if fault {
        return Err(DatabaseError);
      }
      r := Ok((id, rows[id]));
      rows := rows - {id};
    }

    /** The content and the name a new task is created with; id 0 asks for the current default. */
    method ResolveForHardening(id: nat, fault: bool) returns (r: Outcome<(Strategy, string)>)
      modifies this
      ensures id != 0 ==> Contents() == old(Contents())
      ensures id == 0 ==> Contents() == Perform(old(Contents()), Call.GetCurrent(fault)).0
      ensures r == Resolved(old(Contents()), id, fault)
    {
      if id == 0 {
        var current := GetCurrent(fault);
        return if current.Ok? then Ok((current.value.1.content, DEFAULT_NAME)) else Err(current.error);
      }
      if id !in rows {
        return Err(StrategyNotFound);
      }
      var name := rows[id].name;
      if rows[id].isDefault || name == "" {
        name := DEFAULT_NAME;
      }
      r := Ok((rows[id].content, name));
    }
  }

  function Resolved(lib: Library, id: nat, fault: bool): Outcome<(Strategy, string)> {
    if id == 0 then
      var current := GettingCurrent(lib, fault).1;
      if current.Ok? then Ok((current.value.1.content, DEFAULT_NAME)) else Err(current.error)
    else if id !in lib.rows then Err(StrategyNotFound)
    else Ok((lib.rows[id].content,
             if lib.rows[id].isDefault || lib.rows[id].name == "" then DEFAULT_NAME else lib.rows[id].name))
  }

  // ---------------------------------------------------------------- invariants over call sequences

  ghost predicate LibraryOk(lib: Library) {
    && lib.nextId > 0 && (forall i :: i in lib.rows ==> 0 < i < lib.nextId)
    && (forall i, j :: i in lib.rows && j in lib.rows && lib.rows[i].isDefault && lib.rows[j].isDefault ==> i == j)
    && (forall i :: i in lib.rows && !lib.rows[i].isDefault ==>
          lib.rows[i].name != "" && IsTrimmed(lib.rows[i].name))
    && (forall i, j :: i in lib.rows && j in lib.rows && i != j && !lib.rows[i].isDefault && !lib.rows[j].isDefault ==>
          lib.rows[i].name != lib.rows[j].name)
  }

  function RunCalls(lib: Library, calls: seq<Call>): Library
    decreases |calls|
  {
    if calls == [] then lib else Perform(RunCalls(lib, calls[..|calls| - 1]), calls[|calls| - 1]).0
  }

  /** Storing a row under an id in use or under the next one. */
  lemma StoringKeepsLibraryOk(lib: Library, id: nat, row: StrategyRow, nextId: nat)
    requires LibraryOk(lib) && 0 < id < nextId && lib.nextId <= nextId
    requires row.isDefault ==> forall i :: i in lib.rows && lib.rows[i].isDefault ==> i == id
    requires !row.isDefault ==>
      && row.name != "" && IsTrimmed(row.name)
      && forall i :: i in lib.rows && i != id && !lib.rows[i].isDefault ==> lib.rows[i].name != row.name
    ensures LibraryOk(Library(lib.rows[id := row], nextId))
  {
    hide IsTrimmed;
  }

  lemma ValidNameIsFree(lib: Library, p: Payload, exclude: nat)
    requires LibraryOk(lib) && ValidatePayload(lib, p, exclude).None?
    ensures TrimSpace(p.name) != "" && IsTrimmed(TrimSpace(p.name))
    ensures forall i :: i in lib.rows && i != exclude && !lib.rows[i].isDefault ==> lib.rows[i].name != TrimSpace(p.name)
  {
    hide ValidateFields;
    hide TrimSpace;
  }

  lemma CallKeepsLibraryOk(lib: Library, call: Call)
    requires LibraryOk(lib)
    ensures LibraryOk(Perform(lib, call).0)
  {
    hide ValidateFields;
    hide ValidatePayload;
    hide TrimSpace;
    hide IsTrimmed;
    var (lib', r) := Perform(lib, call);
    match call
    case Create(p, _, _) =>
      if r.Ok? {
        ValidNameIsFree(lib, p, 0);
        StoringKeepsLibraryOk(lib, lib.nextId, r.value.1, lib'.nextId);
      }
    case Update(id, p, _, _) =>
      if r.Ok? {
        ValidNameIsFree(lib, p, id);
        StoringKeepsLibraryOk(lib, id, r.value.1, lib.nextId);
      }
    case Delete(_, _) =>
    case _ =>
      if lib' != lib {
        StoringKeepsLibraryOk(lib, r.value.0, r.value.1, lib'.nextId);
      }
  }

  /** In every library reached by calls from an empty table there is at most one default row, and the
      regular names are trimmed, non-empty and pairwise distinct. */
  lemma {:induction false} LibraryStaysOk(calls: seq<Call>)
    ensures LibraryOk(RunCalls(EMPTY, calls))
    decreases |calls|
  {
    hide Perform;
    if calls != [] {
      LibraryStaysOk(calls[..|calls| - 1]);
      CallKeepsLibraryOk(RunCalls(EMPTY, calls[..|calls| - 1]), calls[|calls| - 1]);
    }
  }

  lemma CallKeepsContents(lib: Library, call: Call)
    requires LibraryOk(lib) && forall i :: i in lib.rows ==> FieldsOk(lib.rows[i].content)
    ensures forall i :: i in Perform(lib, call).0.rows ==> FieldsOk(Perform(lib, call).0.rows[i].content)
  {
    hide FieldsOk;
    hide ValidateFields;
    hide ValidatePayload;
    hide TrimSpace;
    hide IsTrimmed;
    match call
    case SaveCurrent(content, _, _) => FieldsAreChecked(content);
    case Create(p, _, _) => PayloadIsChecked(lib, p, 0);
    case Update(id, p, _, _) => PayloadIsChecked(lib, p, id);
    case _ =>
  }

  /** Whatever is called, only strategies with admissible fields are ever stored. */
  lemma {:induction false} StoredFieldsAreOk(calls: seq<Call>)
    ensures forall i :: i in RunCalls(EMPTY, calls).rows ==> FieldsOk(RunCalls(EMPTY, calls).rows[i].content)
    decreases |calls|
  {
    hide Perform;
    hide FieldsOk;
    if calls != [] {
      LibraryStaysOk(calls[..|calls| - 1]);
      StoredFieldsAreOk(calls[..|calls| - 1]);
      CallKeepsContents(RunCalls(EMPTY, calls[..|calls| - 1]), calls[|calls| - 1]);
    }
  }

  /** The answer of SaveCurrent: its errors, and the one row it writes, under the id and the creator of the
      default row if there is one. */
  lemma SaveCurrentMeans(lib: Library, content: Strategy, user: nat, fault: bool)
    requires LibraryOk(lib)
    ensures var (lib', r) := Perform(lib, SaveCurrent(content, user, fault));
      && (!FieldsOk(content) ==> lib' == lib && r.Err? && FirstFault(content, r.error))
      && (FieldsOk(content) && fault ==> lib' == lib && r == Err(DatabaseError))
      && (FieldsOk(content) && !fault ==>
            && r.Ok? && lib'.rows == lib.rows[r.value.0 := r.value.1]
            && r.value.1.isDefault && r.value.1.name == DEFAULT_NAME && r.value.1.description == ""
            && r.value.1.content == content && r.value.1.updatedBy == user
            && (if r.value.0 in lib.rows
                then lib.rows[r.value.0].isDefault && r.value.1.createdBy == lib.rows[r.value.0].createdBy
                     && lib'.nextId == lib.nextId
                else (forall i :: i in lib.rows ==> !lib.rows[i].isDefault) && r.value.1.createdBy == user
                     && r.value.0 == lib.nextId && lib'.nextId == lib.nextId + 1))
  {
    hide FieldsOk;
    hide ValidateFields;
    hide FirstFault;
    hide IsTrimmed;
    FieldsAreChecked(content);
  }

  /** The answer of GetCurrent: the default row; or else the first row, which becomes the default; or the
      template, which is not stored. */
  lemma GetCurrentMeans(lib: Library, fault: bool)
    requires LibraryOk(lib)
    ensures var (lib', r) := Perform(lib, GetCurrent(fault));
      && (forall d :: d in lib.rows && lib.rows[d].isDefault ==> lib' == lib && r == Ok((d, lib.rows[d])))
      && (lib.rows == map[] ==>
            lib' == lib && r.Ok? && r.value.1.content == FINANCE && r.value.1.name == DEFAULT_NAME && r.value.1.isDefault)
      && (forall i :: i in lib.rows && (forall j :: j in lib.rows ==> i <= j && !lib.rows[j].isDefault) ==>
            if fault then lib' == lib && r == Err(DatabaseError)
            else
              var row := lib.rows[i].(name := DEFAULT_NAME, isDefault := true);
              lib' == lib.(rows := lib.rows[i := row]) && r == Ok((i, row)))
  {
    hide IsTrimmed;
  }

  /** The rows that Create and Update write: the trimmed texts and the content as sent; a creation is by the
      user, an update keeps the creator. */
  lemma NamedCallsMean(lib: Library, call: Call)
    requires LibraryOk(lib) && (call.Create? || call.Update?) && Perform(lib, call).1.Ok?
    ensures var (lib', r) := Perform(lib, call);
      && lib'.rows == lib.rows[r.value.0 := r.value.1]
      && IsMiddle(r.value.1.name, call.payload.name) && IsMiddle(r.value.1.description, call.payload.description)
      && !r.value.1.isDefault && r.value.1.content == call.payload.content && r.value.1.updatedBy == call.user
      && (call.Create? ==> r.value.0 == lib.nextId && lib'.nextId == lib.nextId + 1 && r.value.1.createdBy == call.user)
      && (call.Update? ==>
            r.value.0 == call.id && call.id in lib.rows && lib'.nextId == lib.nextId
            && r.value.1.createdBy == lib.rows[call.id].createdBy)
  {
    hide TrimSpace;
    hide IsMiddle;
    hide ValidatePayload;
    hide IsTrimmed;
  }

  /** And their errors, in the order in which they are looked for. */
  lemma NamedCallsRefuse(lib: Library, call: Call)
    requires (call.Create? || call.Update?) && Perform(lib, call).1.Err?
    ensures var (lib', r) := Perform(lib, call);
      var exclude := if call.Update? then call.id else 0;
      && lib' == lib
      && if call.Update? && (call.id !in lib.rows || lib.rows[call.id].isDefault) then r == Err(StrategyNotFound)
         else if AllSpace(call.payload.name) then r == Err(NameRequired)
         else if !FieldsOk(call.payload.content) then FirstFault(call.payload.content, r.error)
         else if !NameFree(lib.rows, TrimSpace(call.payload.name), exclude) then r == Err(NameExists)
         else call.fault && r == Err(DatabaseError)
  {
    hide TrimSpace;
    hide FieldsOk;
    hide FirstFault;
    hide ValidatePayload;
    hide NameFree;
    PayloadIsChecked(lib, call.payload, if call.Update? then call.id else 0);
  }

  /** What a task is frozen with: the named row, the default row under its fixed name, or an error. */
  lemma ResolvedMeans(lib: Library, id: nat, fault: bool)
    requires LibraryOk(lib)
    ensures id > 0 && id !in lib.rows ==> Resolved(lib, id, fault) == Err(StrategyNotFound)
    ensures id > 0 && id in lib.rows ==>
      Resolved(lib, id, fault) ==
        Ok((lib.rows[id].content, if lib.rows[id].isDefault then DEFAULT_NAME else lib.rows[id].name))
    ensures id == 0 && Perform(lib, GetCurrent(fault)).1.Ok? ==>
      Resolved(lib, id, fault) == Ok((Perform(lib, GetCurrent(fault)).1.value.1.content, DEFAULT_NAME))
    ensures id == 0 && Perform(lib, GetCurrent(fault)).1.Err? ==> Resolved(lib, id, fault) == Err(DatabaseError)
  {
    hide IsTrimmed;
  }

  lemma TemplateIsOk()
    ensures FieldsOk(FINANCE) && ResolveRiskLevel(FINANCE) == Low
  {
  }

  lemma DefaultIsUnique(lib: Library, d: nat)
    requires LibraryOk(lib) && d in lib.rows && lib.rows[d].isDefault
    ensures Default(lib) == Some(d)
  {
  }

  /** Once there is a default row it stays the default under the same id; only SaveCurrent changes it, and
      the named calls refuse it. */
  lemma CallKeepsDefault(lib: Library, call: Call, d: nat)
    requires LibraryOk(lib) && d in lib.rows && lib.rows[d].isDefault
    ensures var lib' := Perform(lib, call).0;
      && d in lib'.rows && lib'.rows[d].isDefault
      && (!call.SaveCurrent? ==> lib'.rows[d] == lib.rows[d])
    ensures call.Delete? && call.id == d ==> Perform(lib, call) == (lib, Err(DefaultDelete))
    ensures call.Update? && call.id == d ==> Perform(lib, call) == (lib, Err(StrategyNotFound))
  {
    hide ValidateFields;
    hide TrimSpace;
    DefaultIsUnique(lib, d);
  }

  lemma {:induction false} DefaultKeepsItsId(lib: Library, calls: seq<Call>, d: nat)
    requires LibraryOk(lib) && d in lib.rows && lib.rows[d].isDefault
    ensures LibraryOk(RunCalls(lib, calls)) && Default(RunCalls(lib, calls)) == Some(d)
    ensures (forall i :: 0 <= i < |calls| ==> !calls[i].SaveCurrent?) ==> RunCalls(lib, calls).rows[d] == lib.rows[d]
    decreases |calls|
  {
    hide Perform;
    if calls != [] {
      var before := RunCalls(lib, calls[..|calls| - 1]);
      DefaultKeepsItsId(lib, calls[..|calls| - 1], d);
      CallKeepsLibraryOk(before, calls[|calls| - 1]);
      CallKeepsDefault(before, calls[|calls| - 1], d);
    }
    DefaultIsUnique(RunCalls(lib, calls), d);
  }

  /** What a named call stores is what a task that asks for its row is frozen with, until the next edit. */
  lemma StoredIsResolved(lib: Library, call: Call, fault: bool)
    requires LibraryOk(lib) && (call.Create? || call.Update?) && Perform(lib, call).1.Ok?
    ensures var (lib', r) := Perform(lib, call);
      && r.value.0 > 0 && (call.Create? ==> r.value.0 !in lib.rows) && (call.Update? ==> r.value.0 == call.id)
      && Resolved(lib', r.value.0, fault) == Ok((call.payload.content, TrimSpace(call.payload.name)))
      && forall i :: i != r.value.0 ==> (i in lib.rows <==> i in lib'.rows) && (i in lib.rows ==> lib'.rows[i] == lib.rows[i])
  {
    hide ValidateFields;
    hide TrimSpace;
  }

  /** What SaveCurrent stores is what the next task without a strategy is frozen with. */
  lemma SavedIsResolved(lib: Library, content: Strategy, user: nat, fault: bool)
    requires LibraryOk(lib)
    requires Perform(lib, SaveCurrent(content, user, false)).1.Ok?
    ensures var lib' := Perform(lib, SaveCurrent(content, user, false)).0;
      Resolved(lib', 0, fault) == Ok((content, DEFAULT_NAME))
  {
    hide ValidateFields;
    var (lib', saved) := Perform(lib, SaveCurrent(content, user, false));
    CallKeepsLibraryOk(lib, SaveCurrent(content, user, false));
    DefaultIsUnique(lib', saved.value.0);
  }
}
