/** The coordinator's tables of pending and committed writes
(project/src/coordinator.cpp). Every method body is one critical section. */
module CommitTables {

  /** What a table records of a write; `gen` tells the writes of one key apart. */
  datatype Info = Info(size: int, stripe: int, gen: nat)

  const NO_INFO: Info := Info(0, 0, 0)

  datatype Tables = Tables(updating: map<string, Info>, committed: map<string, Info>)

  /** A new write of the key forgets that an older one was committed. */
  function Forget(t: Tables, key: string): Tables { t.(committed := t.committed - {key}) }

  function Mark(t: Tables, key: string, info: Info): Tables { t.(updating := t.updating[key := info]) }

  function Unmark(t: Tables, key: string): Tables { t.(updating := t.updating - {key}) }

  /** A commit moves whatever is pending for the key; an abort drops it. */
  function Report(t: Tables, key: string, commit: bool): Tables {
    if commit then Tables(t.updating - {key},
      t.committed[key := if key in t.updating then t.updating[key] else NO_INFO])
    else Unmark(t, key)
  }

  predicate Waits(t: Tables, key: string) { key in t.updating }

  predicate Answer(t: Tables, key: string) { key in t.committed }

  class CoordinatorTables {
    var updating: map<string, Info>
    var committed: map<string, Info>

    function View(): Tables
      reads this
    {
      Tables(updating, committed)
    }

    constructor ()
      ensures View() == Tables(map[], map[])
    {
      updating, committed := map[], map[];
    }

    /** uploadAppendValue, before the proxies are told. */
    method ForgetCommit(key: string)
      modifies this
      ensures View() == Forget(old(View()), key)
    {
      committed := committed - {key};
    }

    /** notify_proxies_ready, before the first attempt. */
    method MarkPending(key: string, info: Info)
      modifies this
      ensures View() == Mark(old(View()), key, info)
    {
      updating := updating[key := info];
    }

    /** notify_proxies_ready, after the last failed attempt. */
    method GiveUp(key: string)
      modifies this
      ensures View() == Unmark(old(View()), key)
    {
      updating := updating - {key};
    }

    /** reportCommitAbort for a set or an append. */
    method ReportCommitAbort(key: string, commit: bool)
      modifies this
      ensures View() == Report(old(View()), key, commit)
    {
      if commit {
        if key !in updating { updating := updating[key := NO_INFO]; }
        committed := committed[key := updating[key]];
        updating := updating - {key};
        assert updating == old(updating) - {key};
      } else {
        updating := updating - {key};
      }
    }

    /** checkCommitAbort for a set or an append: once nothing is pending. */
    method CheckCommitAbort(key: string) returns (waits: bool, answer: bool)
      ensures waits == Waits(View(), key) && (!waits ==> answer == Answer(View(), key))
    {
      waits, answer := key in updating, false;
      if !waits { answer := key in committed; }
    }
  }
}
