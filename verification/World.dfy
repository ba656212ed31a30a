/** The worker's surroundings: the repository, the object store, and everybody else.  Which API calls run
    between two steps of the worker, and which of its own calls fail, is chosen by an arbitrary script.
    A ghost copy of the pipeline's state machine follows along; Advance is the only way to move it, and
    demands that the real tables and objects agree with it. */
module World {
  import opened Wrappers
  import opened Pipeline
  import opened Invariants
  import opened Theorems
  import opened Repository

  /** What happens at one step of the worker: the API calls before it, then its own luck. */
  datatype Choice = Choice(
    others: seq<ApiCall>, fault: bool, landed: bool, faultAt: Option<nat>, text: string,
    body: bool, size: int, sha: string, signed: Option<(int, string)>)

  /** Nothing goes wrong at this step: no call fails, and the engine leaves an output. */
  predicate Lucky(c: Choice) {
    !c.fault && c.faultAt == None && c.body && c.size > 0
  }

  class ObjectStorage {
    var objects: set<string>
    var putLog: seq<string>
    var deleteLog: seq<string>

    constructor ()
      ensures objects == {} && putLog == [] && deleteLog == []
    {
      objects, putLog, deleteLog := {}, [], [];
    }

    /** A call that fails may have stored the object all the same; the log keeps the successful calls. */
    method PutObject(key: string, fault: bool, landed: bool) returns (ok: bool)
      modifies this
      ensures ok == !fault && deleteLog == old(deleteLog)
      ensures objects == (if ok || landed then old(objects) + {key} else old(objects))
      ensures putLog == (if ok then old(putLog) + [key] else old(putLog))
    {
      ok := !fault;
      if ok || landed {
        objects := objects + {key};
      }
      if ok {
        putLog := putLog + [key];
      }
    }

    /** Deleting a missing object succeeds; the log keeps every attempt.  A call that fails may have deleted
        the object all the same. */
    method DeleteObject(key: string, fault: bool, landed: bool) returns (ok: bool)
      modifies this
      ensures ok == !fault && putLog == old(putLog)
      ensures objects == (if ok || landed then old(objects) - {key} else old(objects))
      ensures deleteLog == old(deleteLog) + [key]
    {
      ok := !fault;
      deleteLog := deleteLog + [key];
      if ok || landed {
        objects := objects - {key};
      }
    }
  }

  /** An API call neither sees nor touches the worker and the history. */
  lemma ApiIsLocal(s: State, m: State, call: ApiCall)
    requires s.db == m.db && s.objects == m.objects && s.txs == m.txs
    ensures ApiEnabled(s, call) <==> ApiEnabled(m, call)
    ensures ApiEnabled(s, call) ==>
      var s', m' := ApplyApi(s, call), ApplyApi(m, call);
      s'.db == m'.db && s'.objects == m'.objects && s'.txs == m'.txs && m'.pc == m.pc
  {
  }

  class Surroundings {
    const repo: HardeningRepository
    const storage: ObjectStorage
    const script: nat -> Choice
    var tick: nat
    var txs: map<nat, Tx>
    ghost var machine: State
    ghost var trace: seq<Action>

    /** The tables and objects are what the recorded run of the machine leads to. */
    ghost predicate Valid()
      reads this, repo, storage
    {
      && ValidRun(INIT, trace) && machine == Exec(INIT, trace)
      && machine.db == repo.Contents() && machine.objects == storage.objects && machine.txs == txs
    }

    constructor (script: nat -> Choice)
      ensures Valid() && fresh(repo) && fresh(storage) && machine.pc == Down
    {
      repo := new HardeningRepository();
      storage := new ObjectStorage();
      this.script := script;
      tick, txs, machine, trace := 0, map[], INIT, [];
    }

    ghost method Advance(a: Action)
      requires ValidRun(INIT, trace) && machine == Exec(INIT, trace) && Enabled(machine, a)
      requires var next := Apply(machine, a);
        next.db == repo.Contents() && next.objects == storage.objects && next.txs == txs
      modifies `machine, `trace
      ensures Valid() && machine == Apply(old(machine), a) && trace == old(trace) + [a]
    {
      hide ValidRun;
      hide Exec;
      hide Enabled;
      hide Apply;
      Extend(INIT, trace, a);
      machine, trace := Apply(machine, a), trace + [a];
    }

    /** Everybody else runs; then the worker learns its luck for its next call. */
    method Yield() returns (c: Choice)
      requires Valid()
      modifies this, repo, storage`objects
      ensures Valid() && machine.pc == old(machine.pc) && Inv(machine)
      ensures c == script(old(tick)) && tick == old(tick) + 1
    {
      hide ValidRun;
      hide Exec;
      hide ApiEnabled;
      hide ApplyApi;
      hide Inv;
      c := script(tick);
      tick := tick + 1;
      var n := 0;
      while n < |c.others|
        invariant n <= |c.others| && Valid() && machine.pc == old(machine.pc) && tick == old(tick) + 1
      {
        var call := c.others[n];
        var seen := State(repo.Contents(), storage.objects, txs, Idle, {}, {}, map[], []);
        ApiIsLocal(seen, machine, call);
        if ApiEnabled(seen, call) {
          var next := ApplyApi(seen, call);
          repo.apps, repo.tasks, repo.steps := next.db.apps, next.db.tasks, next.db.steps;
          repo.nextApp, repo.nextTask := next.db.nextApp, next.db.nextTask;
          storage.objects := next.objects;
          txs := next.txs;
          Advance(Api(call));
        }
        n := n + 1;
      }
      InitInv();
      RunsKeepInv(INIT, trace);
    }

    /** The process dies here and comes back. */
    method Crash()
      requires Valid()
      modifies this
      ensures Valid() && machine.pc == Down && machine == AfterCrash(old(machine)) && tick == old(tick)
    {
      hide ValidRun;
      hide Exec;
      txs := map[];
      Advance(Action.Crash);
    }
  }
}
