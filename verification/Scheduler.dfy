/** The job scheduler's incremental reload against a rebuild from scratch (scheduler.py:319-403), and
    its bounded retries (scheduler.py:405-459). */
module Scheduler {
  import opened Wrappers

  /** One row of the job table. `kwargs` is the canonical text of the arguments. */
  datatype JobSpec = JobSpec(id: string, handlerKey: string, cron: string, kwargs: string, enabled: bool) {
    function Sign(): Signature {
      Signature(handlerKey, cron, kwargs, enabled)
    }
  }

  datatype Signature = Signature(handlerKey: string, cron: string, kwargs: string, enabled: bool)

  /** What the scheduler runs. */
  datatype Job = Job(handlerKey: string, cron: string, kwargs: string)

  /** The rows of a snapshot by id; of rows with the same id the last one counts. */
  function ById(specs: seq<JobSpec>): map<string, JobSpec> {
    if specs == [] then map[]
    else ById(specs[..|specs| - 1])[specs[|specs| - 1].id := specs[|specs| - 1]]
  }

  lemma {:induction false} ByIdKeys(specs: seq<JobSpec>)
    ensures forall id :: id in ById(specs) ==> ById(specs)[id].id == id && ById(specs)[id] in specs
    ensures forall spec :: spec in specs ==> spec.id in ById(specs)
  {
    if specs != [] {
      ByIdKeys(specs[..|specs| - 1]);
      assert forall spec :: spec in specs ==> spec in specs[..|specs| - 1] || spec == specs[|specs| - 1];
    }
  }

  predicate Runnable(spec: JobSpec, handlers: set<string>, validCron: string -> bool) {
    spec.enabled && spec.handlerKey in handlers && validCron(spec.cron)
  }

  /** The jobs of a scheduler that is built afresh from a table. */
  function Rebuilt(table: map<string, JobSpec>, handlers: set<string>, validCron: string -> bool): map<string, Job> {
    map id | id in table && Runnable(table[id], handlers, validCron) ::
      Job(table[id].handlerKey, table[id].cron, table[id].kwargs)
  }

  function Signatures(table: map<string, JobSpec>): map<string, Signature> {
    map id | id in table :: table[id].Sign()
  }

  ghost predicate OwnIds(table: map<string, JobSpec>) {
    forall id :: id in table ==> table[id].id == id
  }

  /** The rows of `now` that are new or differ from `before`. */
  function Changed(before: map<string, JobSpec>, now: map<string, JobSpec>): set<string> {
    set id | id in now && !(id in before && before[id] == now[id])
  }

  lemma RowLoaded(table: map<string, JobSpec>, spec: JobSpec, handlers: set<string>, validCron: string -> bool)
    requires OwnIds(table)
    ensures var next, jobs := table[spec.id := spec], Rebuilt(table, handlers, validCron);
            && OwnIds(next)
            && Signatures(next) == Signatures(table)[spec.id := spec.Sign()]
            && Rebuilt(next, handlers, validCron) ==
               (if Runnable(spec, handlers, validCron)
                then jobs[spec.id := Job(spec.handlerKey, spec.cron, spec.kwargs)] else jobs - {spec.id})
            && (spec.id in table && table[spec.id] == spec ==> next == table)
  {
    hide Runnable;
  }

  lemma RowKnown(table: map<string, JobSpec>, spec: JobSpec)
    requires OwnIds(table)
    ensures spec.id in Signatures(table) <==> spec.id in table
    ensures spec.id in table ==> (Signatures(table)[spec.id] == spec.Sign() <==> table[spec.id] == spec)
  {
  }

  lemma RowGone(table: map<string, JobSpec>, id: string, handlers: set<string>, validCron: string -> bool)
    requires OwnIds(table)
    ensures OwnIds(table - {id})
    ensures Signatures(table - {id}) == Signatures(table) - {id}
    ensures Rebuilt(table - {id}, handlers, validCron) == Rebuilt(table, handlers, validCron) - {id}
  {
    hide Runnable;
  }

  lemma JobOfKnownRow(table: map<string, JobSpec>, id: string, handlers: set<string>, validCron: string -> bool)
    ensures id in Rebuilt(table, handlers, validCron) ==> id in table
  {
  }

  lemma KnownKeys(table: map<string, JobSpec>)
    ensures Signatures(table).Keys == table.Keys
  {
  }

  lemma NoRows(table: map<string, JobSpec>)
    ensures ById([]) == map[] && Changed(table, map[]) == {}
  {
  }

  lemma ChangedStep(before: map<string, JobSpec>, now: map<string, JobSpec>, spec: JobSpec)
    ensures var step := if spec.id in before && before[spec.id] == spec then {} else {spec.id};
            spec.id !in now ==> Changed(before, now[spec.id := spec]) == Changed(before, now) + step
  {
  }

  lemma JobReplaced(jobs: map<string, Job>, id: string, job: Job)
    ensures (jobs - {id})[id := job] == jobs[id := job]
    ensures id !in jobs ==> jobs - {id} == jobs
  {
  }

  class SchedulerRunner {
    const handlers: set<string>
    const validCron: string -> bool
    var known: map<string, Signature>
    var jobs: map<string, Job>
    /** The table the last reload read. */
    ghost var table: map<string, JobSpec>

    ghost predicate Valid()
      reads this
    {
      && OwnIds(table)
      && known == Signatures(table)
      && jobs == Rebuilt(table, handlers, validCron)
    }

    constructor (handlers: set<string>, validCron: string -> bool)
      ensures Valid() && table == map[]
      ensures this.handlers == handlers && this.validCron == validCron
    {
      this.handlers := handlers;
      this.validCron := validCron;
      known, jobs, table := map[], map[], map[];
    }

    method AddJob(spec: JobSpec)
      modifies this`jobs
      ensures jobs == if spec.handlerKey in handlers && validCron(spec.cron)
                      then old(jobs)[spec.id := Job(spec.handlerKey, spec.cron, spec.kwargs)] else old(jobs)
    {
      if spec.handlerKey !in handlers || !validCron(spec.cron) {
        return;
      }
      jobs := jobs[spec.id := Job(spec.handlerKey, spec.cron, spec.kwargs)];
    }

    /** Removing a job that is not there raises in the source and is ignored. */
    method RemoveJob(id: string)
      modifies this`jobs
      ensures jobs == old(jobs) - {id}
    {
      jobs := jobs - {id};
    }

    /** One row: leave it alone if its signature is known, otherwise replace its job. */
    method LoadSpec(spec: JobSpec) returns (ghost touched: bool)
      requires Valid()
      modifies this
      ensures Valid()
      ensures table == old(table)[spec.id := spec]
      ensures touched <==> !(spec.id in old(table) && old(table)[spec.id] == spec)
      ensures !touched ==> jobs == old(jobs)
    {
      RowLoaded(table, spec, handlers, validCron);
      RowKnown(table, spec);
      hide OwnIds, Signatures, Rebuilt;
      table := table[spec.id := spec];
      touched := false;
      if spec.id in known && known[spec.id] == spec.Sign() {
        return;
      }
      touched := true;
      JobReplaced(jobs, spec.id, Job(spec.handlerKey, spec.cron, spec.kwargs));
      JobOfKnownRow(old(table), spec.id, handlers, validCron);
      if spec.id in known {
        RemoveJob(spec.id);
      }
      if spec.enabled {
        AddJob(spec);
      }
      known := known[spec.id := spec.Sign()];
    }

    method Forget(id: string)
      requires Valid()
      modifies this
      ensures Valid()
      ensures table == old(table) - {id}
    {
      RowGone(table, id, handlers, validCron);
      hide OwnIds, Signatures, Rebuilt;
      RemoveJob(id);
      known := known - {id};
      table := table - {id};
    }

    /** Load every row in turn; the ids that were in the snapshot. */
    method LoadSpecs(specs: seq<JobSpec>) returns (seen: set<string>, ghost touched: set<string>)
      requires Valid()
      modifies this
      ensures Valid()
      ensures seen == ById(specs).Keys
      ensures table == old(table) + ById(specs)
      ensures |specs| == |ById(specs)| ==> touched == Changed(old(table), ById(specs))
    {
      hide OwnIds, Signatures, Rebuilt, Changed, ById;
      NoRows(table);
      seen, touched := {}, {};
      for i := 0 to |specs|
        invariant Valid()
        invariant seen == ById(specs[..i]).Keys
        invariant table == old(table) + ById(specs[..i])
        invariant |specs| == |ById(specs)| ==> touched == Changed(old(table), ById(specs[..i]))
      {
        ById1(specs, i);
        ChangedStep(old(table), ById(specs[..i]), specs[i]);
        ghost var t := LoadSpec(specs[i]);
        if t {
          touched := touched + {specs[i].id};
        }
        seen := seen + {specs[i].id};
      }
      assert specs[..|specs|] == specs;
    }

    /** Drop the jobs whose row is gone. */
    method DropGone(seen: set<string>)
      requires Valid()
      modifies this
      ensures Valid()
      ensures table == old(table) - (old(table).Keys - seen)
    {
      assert known.Keys == table.Keys by { KnownKeys(table); }
      hide OwnIds, Signatures, Rebuilt;
      var gone := known.Keys - seen;
      ghost var all := gone;
      NothingGone(table);
      assert all - gone == {};
      while gone != {}
        invariant Valid()
        invariant gone <= all
        invariant table == old(table) - (all - gone)
        decreases |gone|
      {
        var id :| id in gone;
        Forget(id);
        PruneOne(old(table), all, gone, id);
        gone := gone - {id};
      }
      assert all - gone == all;
    }

    /** Whatever was loaded before, the jobs are exactly those of a rebuild from this snapshot; and the
        job of a row that did not change is not touched. */
    method ReloadOnce(specs: seq<JobSpec>) returns (ghost touched: set<string>)
      requires Valid()
      modifies this
      ensures Valid()
      ensures table == ById(specs)
      ensures jobs == Rebuilt(ById(specs), handlers, validCron)
      ensures |specs| == |ById(specs)| ==> touched == Changed(old(table), ById(specs))
    {
      hide OwnIds, Signatures, Rebuilt, Changed, ById;
      var seen;
      seen, touched := LoadSpecs(specs);
      Pruned(old(table), ById(specs));
      DropGone(seen);
    }
  }

  lemma Pruned(before: map<string, JobSpec>, now: map<string, JobSpec>)
    ensures (before + now) - ((before + now).Keys - now.Keys) == now
  {
  }

  lemma NothingGone(table: map<string, JobSpec>)
    ensures table - {} == table
  {
  }

  lemma PruneOne(table: map<string, JobSpec>, all: set<string>, gone: set<string>, id: string)
    requires id in gone && gone <= all
    ensures (table - (all - gone)) - {id} == table - (all - (gone - {id}))
  {
    assert all - (gone - {id}) == (all - gone) + {id};
  }

  /** One more row; and without repeated ids it is a new one. */
  lemma ById1(specs: seq<JobSpec>, i: nat)
    requires i < |specs|
    ensures ById(specs[..i + 1]) == ById(specs[..i])[specs[i].id := specs[i]]
    ensures |specs| == |ById(specs)| ==> specs[i].id !in ById(specs[..i])
  {
    hide ById;
    var a, b := specs[..i], specs[..i + 1];
    ByIdNext(specs, i);
    assert b + specs[i + 1..] == specs;
    assert a + [] == a;
    ByIdSize(a, []);
    ByIdSize(b, specs[i + 1..]);
    RowRepeated(ById(a), specs[i]);
  }

  lemma ByIdNext(specs: seq<JobSpec>, i: nat)
    requires i < |specs|
    ensures ById(specs[..i + 1]) == ById(specs[..i])[specs[i].id := specs[i]]
  {
    assert specs[..i + 1][..i] == specs[..i];
  }

  lemma RowRepeated(table: map<string, JobSpec>, spec: JobSpec)
    ensures spec.id in table ==> |table[spec.id := spec]| == |table|
  {
    if spec.id in table {
      assert table[spec.id := spec].Keys == table.Keys;
    }
  }

  lemma {:induction false} ByIdSize(a: seq<JobSpec>, b: seq<JobSpec>)
    ensures |ById(a)| <= |a|
    ensures |ById(a + b)| <= |ById(a)| + |b|
    decreases |a| + |b|
  {
    if b != [] {
      ByIdSize(a, b[..|b| - 1]);
      assert (a + b)[..|a + b| - 1] == a + b[..|b| - 1];
    } else {
      assert a + b == a;
      if a != [] {
        ByIdSize(a[..|a| - 1], []);
      }
    }
  }

  lemma {:induction false} ByIdDistinct(specs: seq<JobSpec>, k: nat)
    requires |specs| == |ById(specs)| && k < |specs|
    ensures specs[k].id in ById(specs) && ById(specs)[specs[k].id] == specs[k]
  {
    var n := |specs| - 1;
    ById1(specs, n);
    assert specs[..n + 1] == specs;
    if k < n {
      ByIdSize(specs[..n], []);
      assert specs[..n] + [] == specs[..n];
      assert |ById(specs)| == |ById(specs[..n])| + 1;
      ByIdDistinct(specs[..n], k);
      ByIdKeys(specs[..n]);
    }
  }

  /** Which jobs a rebuild gives: one per row that is enabled, has a known handler and a valid cron
      expression, with that row's handler, schedule and arguments. */
  lemma RebuiltMeaning(specs: seq<JobSpec>, handlers: set<string>, validCron: string -> bool)
    requires |specs| == |ById(specs)|
    ensures var jobs := Rebuilt(ById(specs), handlers, validCron);
            && (forall k :: 0 <= k < |specs| ==>
                  (specs[k].id in jobs <==> Runnable(specs[k], handlers, validCron)))
            && (forall k :: 0 <= k < |specs| && specs[k].id in jobs ==>
                  jobs[specs[k].id] == Job(specs[k].handlerKey, specs[k].cron, specs[k].kwargs))
            && (forall id :: id in jobs ==> exists k :: 0 <= k < |specs| && specs[k].id == id)
  {
    hide Runnable;
    ByIdKeys(specs);
    forall k | 0 <= k < |specs|
      ensures specs[k].id in ById(specs) && ById(specs)[specs[k].id] == specs[k]
    {
      ByIdDistinct(specs, k);
    }
    hide ById;
    forall id | id in ById(specs)
      ensures exists k :: 0 <= k < |specs| && specs[k].id == id
    {
      var k :| 0 <= k < |specs| && specs[k] == ById(specs)[id];
      assert specs[k].id == id;
    }
  }

  /** Retries: stop at the first success, give up after `maxRetries` more attempts. `works(k)` says how
      attempt k would go. */
  method RunJob(maxRetries: nat, works: nat -> bool) returns (success: bool, attempts: nat)
    ensures 1 <= attempts <= maxRetries + 1
    ensures forall k :: 0 <= k < attempts - 1 ==> !works(k)
    ensures success <==> works(attempts - 1)
    ensures !success ==> attempts == maxRetries + 1
  {
    var total := maxRetries + 1;
    success, attempts := false, 0;
    while attempts < total && !success
      invariant attempts <= total
      invariant forall k :: 0 <= k < attempts - 1 ==> !works(k)
      invariant attempts > 0 ==> (success <==> works(attempts - 1))
      invariant attempts == 0 ==> !success
      decreases total - attempts
    {
      success := works(attempts);
      attempts := attempts + 1;
    }
  }
}
