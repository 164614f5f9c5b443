/**
 Concurrent calls on one session under its lock file (forgepilot_sdk/session.py). Each call is a sequence
 of steps - create the lock file, load, write, unlock - and a run interleaves the steps of any number of
 calls. The write is one step: the code replaces the file atomically.
 */
module SessionLock {
  import opened Lists
  import opened SessionStore
  import opened Options

  /** The transcript: missing, not JSON, or JSON. */
  datatype File = NoFile | Garbled | Holding(raw: Json)

  /** `append_to_session` and `update_session_metadata`. */
  datatype Job = Append(message: Incoming) | Update(patch: map<Key, Json>)

  // ---------------------------------------------------------------- what one call does under the lock

  /** `_load_session_unlocked` with the lock held and nothing persisted; no session gives an empty dictionary. */
  function LoadUnlocked(show: Json -> string, strict: bool, env: Env, id: string, file: File): map<Key, Json> {
    if !file.Holding? then map[]
    else if strict then Fields(file.raw)
    else Stored(Normalized(show, env, id, file.raw).payload).fields
  }

  function Appended(show: Json -> string, env: Env, id: string, data: map<Key, Json>, m: Incoming): Payload {
    var ms := Items(Get(data, Messages)) + [NormalizeMessage(show, m)];
    EnsurePayload(show, env, id, ms,
                  Fields(Get(data, Metadata))[UpdatedAt := Str(env.updated)][MessageCount := Int(|ms|)][Id := Str(id)])
  }

  function Started(show: Json -> string, env: Env, id: string, m: Incoming): Payload {
    EnsurePayload(show, env, id, [NormalizeMessage(show, m)],
                  map[Id := Str(id), CreatedAt := Str(env.created), UpdatedAt := Str(env.updated)])
  }

  function Updated(show: Json -> string, env: Env, id: string, data: map<Key, Json>, patch: map<Key, Json>): Payload {
    EnsurePayload(show, env, id, Items(Get(data, Messages)),
                  DeepMerge(Fields(Get(data, Metadata)), patch)[Id := Str(id)][UpdatedAt := Str(env.updated)])
  }

  /** What a call writes, if it writes. */
  function Output(show: Json -> string, strict: bool, env: Env, id: string, data: map<Key, Json>, job: Job): Option<Payload> {
    match job
    case Append(m) =>
      if data != map[] then Some(Appended(show, env, id, data, m))
      else if strict then None
      else Some(Started(show, env, id, m))
    case Update(patch) =>
      if data == map[] || patch == map[] then None else Some(Updated(show, env, id, data, patch))
  }

  /** One transcript file, and the bodies of the two calls on it. */
  class SessionFile {
    const id: string
    const strict: bool
    var file: File

    constructor (id: string, strict: bool, file: File)
      ensures this.id == id && this.strict == strict && this.file == file
    {
      this.id, this.strict, this.file := id, strict, file;
    }

    method Load(show: Json -> string, env: Env) returns (data: map<Key, Json>)
      requires Answers(env)
      ensures data == LoadUnlocked(show, strict, env, id, file)
    {
      if !file.Holding? {
        return map[];
      }
      if strict {
        return Fields(file.raw);
      }
      var loaded := NormalizeLoadedPayload(show, env, id, file.raw);
      data := Stored(loaded.payload).fields;
    }

    method AppendToSession(show: Json -> string, env: Env, message: Incoming)
      requires Answers(env)
      modifies this
      ensures var out := Output(show, strict, env, id, LoadUnlocked(show, strict, env, id, old(file)), Append(message));
              file == if out.Some? then Holding(Stored(out.value)) else old(file)
    {
      var data := Load(show, env);
      if data == map[] {
        if strict {
          return;
        }
        var first := map[Id := Str(id), CreatedAt := Str(env.created), UpdatedAt := Str(env.updated)];
        file := Holding(Stored(EnsurePayload(show, env, id, [NormalizeMessage(show, message)], first)));
        return;
      }
      var messages := Items(Get(data, Messages));
      messages := messages + [NormalizeMessage(show, message)];
      var metadata := Fields(Get(data, Metadata));
      metadata := metadata[UpdatedAt := Str(env.updated)];
      metadata := metadata[MessageCount := Int(|messages|)];
      metadata := metadata[Id := Str(id)];
      file := Holding(Stored(EnsurePayload(show, env, id, messages, metadata)));
    }

    method UpdateSessionMetadata(show: Json -> string, env: Env, patch: map<Key, Json>) returns (done: bool)
      requires Answers(env)
      modifies this
      ensures var out := Output(show, strict, env, id, LoadUnlocked(show, strict, env, id, old(file)), Update(patch));
              && file == (if out.Some? then Holding(Stored(out.value)) else old(file))
              && done == out.Some?
    {
      if patch == map[] {
        return false;
      }
      var data := Load(show, env);
      if data == map[] {
        return false;
      }
      var metadata := DeepMergeDict(Fields(Get(data, Metadata)), patch);
      metadata := metadata[Id := Str(id)];
      metadata := metadata[UpdatedAt := Str(env.updated)];
      file := Holding(Stored(EnsurePayload(show, env, id, Items(Get(data, Messages)), metadata)));
      done := true;
    }
  }

  // ---------------------------------------------------------------- the interleaved machine

  datatype Lock = Lock(owner: nat, since: int)

  datatype Pc = Waiting | Breaking | Locked | Read(seen: File, env: Env) | Leaving | Gone

  datatype Config = Config(show: Json -> string, strict: bool, id: string, stale: int, jobs: nat -> Job, start: File)

  /** The file, the lock file and every call's place; then, for the record, who locked and who wrote. */
  datatype State = State(file: File, lock: Option<Lock>, pcs: map<nat, Pc>, locked: seq<nat>, written: seq<nat>, finished: set<nat>)

  datatype Event =
    | Create(call: nat, now: int)
    | Stat(call: nat, now: int)
    | Unlink(call: nat)
    | GiveUp(call: nat)
    | Load(call: nat, env: Env)
    | Write(call: nat, env: Env)
    | Fail(call: nat)
    | Unlock(call: nat)
    | Crash(call: nat)

  function PcOf(s: State, p: nat): Pc {
    if p in s.pcs then s.pcs[p] else Waiting
  }

  function At(s: State, p: nat, pc: Pc): State {
    s.(pcs := s.pcs[p := pc])
  }

  function Wrote(c: Config, s: State, p: nat, env: Env): State
    requires PcOf(s, p).Read?
  {
    var pc := PcOf(s, p);
    var out := Output(c.show, c.strict, env, c.id, LoadUnlocked(c.show, c.strict, pc.env, c.id, pc.seen), c.jobs(p));
    var done := At(s, p, Leaving).(finished := s.finished + {p});
    if out.Some? then done.(file := Holding(Stored(out.value)), written := s.written + [p]) else done
  }

  /** A step whose turn has not come leaves the state alone. */
  function Next(c: Config, s: State, e: Event): State {
    var p := e.call;
    var pc := PcOf(s, p);
    match e
    case Create(_, now) =>
      if pc.Waiting? && s.lock.None? then At(s, p, Locked).(lock := Some(Lock(p, now)), locked := s.locked + [p]) else s
    case Stat(_, now) =>
      if pc.Waiting? && s.lock.Some? && now - s.lock.value.since > c.stale then At(s, p, Breaking) else s
    case Unlink(_) => if pc.Breaking? then At(s, p, Waiting).(lock := None) else s
    case GiveUp(_) => if pc.Waiting? then At(s, p, Gone) else s
    case Load(_, env) => if pc.Locked? then At(s, p, Read(s.file, env)) else s
    case Write(_, env) => if pc.Read? then Wrote(c, s, p, env) else s
    case Fail(_) => if pc.Locked? || pc.Read? then At(s, p, Leaving) else s
    case Unlock(_) => if pc.Leaving? then At(s, p, Gone).(lock := None) else s
    case Crash(_) => At(s, p, Gone)
  }

  function Init(c: Config): State {
    State(c.start, None, map[], [], [], {})
  }

  function Run(c: Config, es: seq<Event>): State {
    if es == [] then Init(c) else Next(c, Run(c, es[..|es| - 1]), es[|es| - 1])
  }

  /** No waiting call ever finds the lock file older than the stale age. */
  predicate NeverStale(c: Config, es: seq<Event>)
    decreases |es|
  {
    es == [] ||
    (&& NeverStale(c, es[..|es| - 1])
     && var lock := Run(c, es[..|es| - 1]).lock;
        (es[|es| - 1].Stat? && lock.Some? ==> es[|es| - 1].now - lock.value.since <= c.stale))
  }

  // ---------------------------------------------------------------- what the transcript should be

  function RawMessages(file: File): seq<Json> {
    if file.Holding? then Items(Get(Fields(file.raw), Messages)) else []
  }

  /** A message as it should end up in the file. */
  function Entry(show: Json -> string, m: Incoming): Json {
    Obj(map[Role := Str(RoleOf(show, m)), Content := ContentOf(show, m)])
  }

  function Entries(show: Json -> string, ms: seq<Json>): seq<Json> {
    seq(|ms|, i requires 0 <= i < |ms| => Entry(show, Untyped(ms[i])))
  }

  function Addition(c: Config, job: Job): seq<Json> {
    match job case Append(m) => [Entry(c.show, m)] case Update(_) => []
  }

  /** Messages are normalised on their own and again with the rest; either way they become their entries. */
  lemma EntryStored(show: Json -> string, m: Incoming)
    requires ShowsSomething(show)
    ensures NormalizeMessage(show, Untyped(NormalizeMessage(show, m))) == Entry(show, m)
    ensures m.Untyped? ==> NormalizeMessage(show, m) == Entry(show, m)
  {
    MessageSays(show, m);
    SaysOne(NormalizeMessage(show, Untyped(NormalizeMessage(show, m))), Entry(show, m), RoleOf(show, m), ContentOf(show, m));
    if m.Untyped? {
      SaysOne(NormalizeMessage(show, m), Entry(show, m), RoleOf(show, m), ContentOf(show, m));
    }
  }

  lemma EntriesStored(show: Json -> string, ms: seq<Json>)
    requires ShowsSomething(show)
    ensures NormalizeAll(show, ms) == Entries(show, ms)
  {
    forall i | 0 <= i < |ms| ensures NormalizeAll(show, ms)[i] == Entries(show, ms)[i] {
      EntryStored(show, Untyped(ms[i]));
    }
  }

  /** The messages of the calls that wrote, in that order. */
  function Contributed(c: Config, calls: seq<nat>): seq<Json> {
    if calls == [] then [] else
    Contributed(c, calls[..|calls| - 1]) + Addition(c, c.jobs(calls[|calls| - 1]))
  }

  /** The file is a payload with exactly these messages, counted, under the session's id. */
  ghost predicate Holds(file: File, id: string, ms: seq<Json>) {
    && file.Holding? && file.raw.Obj? && file.raw.fields.Keys == {Metadata, Messages}
    && file.raw.fields[Messages] == Arr(ms) && file.raw.fields[Metadata].Obj?
    && Get(file.raw.fields[Metadata].fields, MessageCount) == Int(|ms|)
    && Get(file.raw.fields[Metadata].fields, Id) == Str(id)
  }

  /** Nothing lost, nothing duplicated. */
  ghost predicate Conserved(c: Config, s: State) {
    if s.written == [] then s.file == c.start
    else Holds(s.file, c.id, Entries(c.show, RawMessages(c.start)) + Contributed(c, s.written))
  }

  /** There is a session to append to, or one will be started. */
  predicate Usable(c: Config, file: File) {
    !c.strict || (file.Holding? && Fields(file.raw) != map[])
  }

  /** There is a session to change. */
  predicate HasSession(c: Config, file: File) {
    file.Holding? && (c.strict ==> Fields(file.raw) != map[])
  }

  // ---------------------------------------------------------------- one write

  lemma EntriesConcat(show: Json -> string, a: seq<Json>, b: seq<Json>)
    ensures Entries(show, a + b) == Entries(show, a) + Entries(show, b)
  {
  }

  /** An entry is its own entry. */
  lemma EntrySettled(show: Json -> string, m: Incoming)
    requires ShowsSomething(show)
    ensures Entry(show, Untyped(Entry(show, m))) == Entry(show, m)
  {
  }

  lemma EntriesTwice(show: Json -> string, ms: seq<Json>)
    requires ShowsSomething(show)
    ensures Entries(show, Entries(show, ms)) == Entries(show, ms)
  {
    forall i | 0 <= i < |ms| ensures Entry(show, Untyped(Entry(show, Untyped(ms[i])))) == Entry(show, Untyped(ms[i])) {
      EntrySettled(show, Untyped(ms[i]));
    }
  }

  lemma AdditionSettled(c: Config, job: Job)
    requires ShowsSomething(c.show)
    ensures Entries(c.show, Addition(c, job)) == Addition(c, job)
  {
    if job.Append? {
      EntrySettled(c.show, job.message);
    }
  }

  lemma NormalizeAllConcat(show: Json -> string, a: seq<Json>, b: seq<Json>)
    ensures NormalizeAll(show, a + b) == NormalizeAll(show, a) + NormalizeAll(show, b)
  {
  }

  /** Normalising on load changes nothing once the payload is normalised on write. */
  lemma LoadedMessages(c: Config, env: Env, file: File)
    requires ShowsSomething(c.show)
    ensures var data := LoadUnlocked(c.show, c.strict, env, c.id, file);
            NormalizeAll(c.show, Items(Get(data, Messages))) == NormalizeAll(c.show, RawMessages(file))
  {
    if file.Holding? && !c.strict {
      NormalizeAllTwice(c.show, RawMessages(file));
      var payload := Normalized(c.show, env, c.id, file.raw).payload;
      assert Get(Stored(payload).fields, Messages) == Arr(payload.messages);
    }
  }

  lemma EnsuredHolds(show: Json -> string, env: Env, id: string, ms: seq<Json>, meta: map<Key, Json>)
    ensures Holds(Holding(Stored(EnsurePayload(show, env, id, ms, meta))), id, NormalizeAll(show, ms))
  {
  }

  lemma HoldsMessages(file: File, id: string, ms: seq<Json>)
    requires Holds(file, id, ms)
    ensures RawMessages(file) == ms
  {
  }

  /** One call under the lock adds its own message to the normalised transcript and nothing else. */
  lemma OutputAdds(c: Config, env: Env, env2: Env, file: File, job: Job)
    requires ShowsSomething(c.show)
    ensures var out := Output(c.show, c.strict, env2, c.id, LoadUnlocked(c.show, c.strict, env, c.id, file), job);
            && (out.Some? ==> Holds(Holding(Stored(out.value)), c.id, Entries(c.show, RawMessages(file)) + Addition(c, job)))
            && (out.Some? <==> if job.Append? then Usable(c, file) else HasSession(c, file) && job.patch != map[])
  {
    EntriesStored(c.show, RawMessages(file));
    var data := LoadUnlocked(c.show, c.strict, env, c.id, file);
    LoadedMessages(c, env, file);
    var ms := Items(Get(data, Messages));
    match job
    case Append(m) =>
      var one := [NormalizeMessage(c.show, m)];
      NormalizeAllConcat(c.show, ms, one);
      EntryStored(c.show, m);
      assert NormalizeAll(c.show, one) == [Entry(c.show, m)];
      EnsuredHolds(c.show, env2, c.id, ms + one,
        Fields(Get(data, Metadata))[UpdatedAt := Str(env2.updated)][MessageCount := Int(|ms + one|)][Id := Str(c.id)]);
      EnsuredHolds(c.show, env2, c.id, one,
        map[Id := Str(c.id), CreatedAt := Str(env2.created), UpdatedAt := Str(env2.updated)]);
      if data == map[] {
        assert ms == [];
        assert [] + one == one;
      }
    case Update(patch) =>
      EnsuredHolds(c.show, env2, c.id, ms,
        DeepMerge(Fields(Get(data, Metadata)), patch)[Id := Str(c.id)][UpdatedAt := Str(env2.updated)]);
      assert NormalizeAll(c.show, ms) + [] == NormalizeAll(c.show, ms);
  }

  /** The metadata a call starts from: the file's own in strict mode, the completed one otherwise. */
  function OldMetadata(c: Config, env: Env, file: File): map<Key, Json> {
    if !file.Holding? then map[]
    else
      var meta := Fields(Get(Fields(file.raw), Metadata));
      if c.strict then meta
      else Completed(c.show, env, c.id, meta, |Items(Get(Fields(file.raw), Messages))|)
  }

  /** Written over `base` at one moment: id, count and time of the change are set, working directory, model
      and creation time completed, and every other field is that of `base`. */
  ghost predicate WrittenOver(show: Json -> string, env: Env, id: string, base: map<Key, Json>, p: Payload) {
    && (forall key :: key in p.metadata <==> key in base || key in {Id, Cwd, Model, CreatedAt, UpdatedAt, MessageCount})
    && p.metadata[Id] == Str(id) && p.metadata[MessageCount] == Int(|p.messages|) && p.metadata[UpdatedAt] == Str(env.updated)
    && p.metadata[Cwd] == Str(TextOr(show, base, Cwd, env.cwd)) && p.metadata[Model] == Str(TextOr(show, base, Model, env.model))
    && p.metadata[CreatedAt] == Str(TextOr(show, base, CreatedAt, env.created))
    && (forall key :: key in base && key !in {Id, Cwd, Model, CreatedAt, UpdatedAt, MessageCount} ==> p.metadata[key] == base[key])
  }

  /** `full` differs from `base` only in fields that are set anyway. */
  ghost predicate Stamped(env: Env, base: map<Key, Json>, full: map<Key, Json>) {
    && UpdatedAt in full && full[UpdatedAt] == Str(env.updated)
    && (forall key :: key !in {Id, UpdatedAt, MessageCount} ==>
          (key in full <==> key in base) && (key in full ==> full[key] == base[key]))
  }

  lemma EnsuredOver(show: Json -> string, env: Env, id: string, base: map<Key, Json>, full: map<Key, Json>, ms: seq<Json>)
    requires Answers(env) && Stamped(env, base, full)
    ensures WrittenOver(show, env, id, base, EnsurePayload(show, env, id, ms, full))
  {
    DefaultsSay(show, env, id, full, |ms|);
  }

  lemma AppendedOver(show: Json -> string, env: Env, id: string, data: map<Key, Json>, m: Incoming)
    requires Answers(env)
    ensures WrittenOver(show, env, id, Fields(Get(data, Metadata)), Appended(show, env, id, data, m))
  {
    var base, ms := Fields(Get(data, Metadata)), Items(Get(data, Messages)) + [NormalizeMessage(show, m)];
    EnsuredOver(show, env, id, base, base[UpdatedAt := Str(env.updated)][MessageCount := Int(|ms|)][Id := Str(id)], ms);
  }

  lemma StartedOver(show: Json -> string, env: Env, id: string, m: Incoming)
    requires Answers(env)
    ensures WrittenOver(show, env, id, map[], Started(show, env, id, m))
  {
    DefaultsSay(show, env, id, map[Id := Str(id), CreatedAt := Str(env.created), UpdatedAt := Str(env.updated)], 1);
  }

  lemma UpdatedOver(show: Json -> string, env: Env, id: string, data: map<Key, Json>, patch: map<Key, Json>)
    requires Answers(env)
    ensures WrittenOver(show, env, id, DeepMerge(Fields(Get(data, Metadata)), patch), Updated(show, env, id, data, patch))
  {
    var base := DeepMerge(Fields(Get(data, Metadata)), patch);
    EnsuredOver(show, env, id, base, base[Id := Str(id)][UpdatedAt := Str(env.updated)], Items(Get(data, Messages)));
  }

  /** What a call does to the metadata: an append writes over what it loaded, an update over that with the
      patch merged in, and a session that is started over nothing. */
  lemma OutputMetadata(c: Config, env: Env, env2: Env, file: File, job: Job)
    requires Answers(env2)
    ensures var out := Output(c.show, c.strict, env2, c.id, LoadUnlocked(c.show, c.strict, env, c.id, file), job);
            var was := OldMetadata(c, env, file);
            out.Some? ==> WrittenOver(c.show, env2, c.id, if job.Update? then DeepMerge(was, job.patch) else was, out.value)
  {
    var data := LoadUnlocked(c.show, c.strict, env, c.id, file);
    LoadedMetadata(c, env, file);
    match job
    case Append(m) =>
      AppendedOver(c.show, env2, c.id, data, m);
      StartedOver(c.show, env2, c.id, m);
    case Update(patch) => UpdatedOver(c.show, env2, c.id, data, patch);
  }

  lemma LoadedMetadata(c: Config, env: Env, file: File)
    ensures var data := LoadUnlocked(c.show, c.strict, env, c.id, file);
            Fields(Get(data, Metadata)) == OldMetadata(c, env, file)
  {
    if file.Holding? && !c.strict {
      var payload := Normalized(c.show, env, c.id, file.raw).payload;
      assert Get(Stored(payload).fields, Metadata) == Obj(payload.metadata);
    }
  }

  // ---------------------------------------------------------------- every run

  predicate Inside(pc: Pc) {
    pc.Locked? || pc.Read? || pc.Leaving?
  }

  /** Only the lock's owner is inside, it was the last to lock, and what it read is still the file. */
  ghost predicate Exclusive(s: State) {
    && (forall p :: Inside(PcOf(s, p)) ==>
          s.lock.Some? && s.lock.value.owner == p && s.locked != [] && s.locked[|s.locked| - 1] == p)
    && (forall p :: !PcOf(s, p).Breaking?)
    && (forall p :: PcOf(s, p).Read? ==> PcOf(s, p).seen == s.file)
  }

  /** No call locks twice, and only a call that locked has written, at most once. */
  ghost predicate Recorded(s: State) {
    && Distinct(s.locked) && (forall p :: p in s.locked ==> !PcOf(s, p).Waiting?)
    && Distinct(s.written) && (forall p :: p in s.written ==> p in s.locked)
    && (forall p :: PcOf(s, p).Locked? || PcOf(s, p).Read? ==> p !in s.written)
  }

  lemma NextExclusive(c: Config, s: State, e: Event)
    requires Exclusive(s)
    requires e.Stat? && s.lock.Some? ==> e.now - s.lock.value.since <= c.stale
    ensures Exclusive(Next(c, s, e))
  {
    var t := Next(c, s, e);
    forall p ensures p != e.call ==> PcOf(t, p) == PcOf(s, p) {
    }
  }

  lemma NextRecorded(c: Config, s: State, e: Event)
    requires Exclusive(s) && Recorded(s)
    ensures Recorded(Next(c, s, e))
  {
    NextLocked(c, s, e);
    NextWritten(c, s, e);
  }

  lemma NextLocked(c: Config, s: State, e: Event)
    requires Distinct(s.locked) && forall p :: p in s.locked ==> !PcOf(s, p).Waiting?
    requires !PcOf(s, e.call).Breaking?
    ensures var t := Next(c, s, e);
            && Distinct(t.locked) && (forall p :: p in t.locked ==> !PcOf(t, p).Waiting?)
            && forall p :: p in s.locked ==> p in t.locked
  {
    var t := Next(c, s, e);
    forall p ensures p != e.call ==> PcOf(t, p) == PcOf(s, p) {
    }
    if t.locked != s.locked {
      DistinctExtend(s.locked, e.call);
    }
  }

  lemma NextWritten(c: Config, s: State, e: Event)
    requires Exclusive(s) && Recorded(s)
    ensures var t := Next(c, s, e);
            && Distinct(t.written) && (forall p :: p in t.written ==> p in t.locked)
            && forall p :: PcOf(t, p).Locked? || PcOf(t, p).Read? ==> p !in t.written
  {
    var t := Next(c, s, e);
    forall p ensures p != e.call ==> PcOf(t, p) == PcOf(s, p) {
    }
    if t.written != s.written {
      DistinctExtend(s.written, e.call);
    }
  }

  /** The file's messages, normalised. */
  function Transcript(c: Config, file: File): seq<Json> {
    Entries(c.show, RawMessages(file))
  }

  function Base(c: Config): seq<Json> {
    Transcript(c, c.start)
  }

  lemma {:induction false} ContributedNormal(c: Config, calls: seq<nat>)
    requires ShowsSomething(c.show)
    ensures Entries(c.show, Contributed(c, calls)) == Contributed(c, calls)
    decreases |calls|
  {
    if calls != [] {
      var job := c.jobs(calls[|calls| - 1]);
      ContributedNormal(c, calls[..|calls| - 1]);
      EntriesConcat(c.show, Contributed(c, calls[..|calls| - 1]), Addition(c, job));
      AdditionSettled(c, job);
    }
  }

  /** The transcript, normalised, is the old one followed by what was contributed. */
  ghost predicate InStep(c: Config, s: State) {
    Transcript(c, s.file) == Base(c) + Contributed(c, s.written)
  }

  lemma ContributionGrows(c: Config, written: seq<nat>, p: nat)
    requires ShowsSomething(c.show)
    ensures var all := Base(c) + Contributed(c, written + [p]);
            all == Base(c) + Contributed(c, written) + Addition(c, c.jobs(p)) && Entries(c.show, all) == all
  {
    assert (written + [p])[..|written|] == written;
    EntriesTwice(c.show, RawMessages(c.start));
    ContributedNormal(c, written + [p]);
    EntriesConcat(c.show, Base(c), Contributed(c, written + [p]));
  }

  /** A step that writes has read the messages that the file still has. */
  predicate ReadCurrent(c: Config, s: State, e: Event) {
    var pc := PcOf(s, e.call);
    e.Write? && pc.Read? && Wrote(c, s, e.call, e.env).written != s.written ==> Transcript(c, pc.seen) == Transcript(c, s.file)
  }

  lemma WroteConserved(c: Config, s: State, p: nat, env: Env)
    requires ShowsSomething(c.show) && InStep(c, s) && Conserved(c, s)
    requires PcOf(s, p).Read? && ReadCurrent(c, s, Write(p, env))
    ensures InStep(c, Wrote(c, s, p, env)) && Conserved(c, Wrote(c, s, p, env))
  {
    var t := Wrote(c, s, p, env);
    if t.written != s.written {
      OutputAdds(c, PcOf(s, p).env, env, PcOf(s, p).seen, c.jobs(p));
      ContributionGrows(c, s.written, p);
      HoldsMessages(t.file, c.id, Base(c) + Contributed(c, t.written));
    } else {
      assert t.file == s.file;
    }
  }

  lemma NextConserved(c: Config, s: State, e: Event)
    requires ShowsSomething(c.show) && InStep(c, s) && Conserved(c, s)
    requires ReadCurrent(c, s, e)
    ensures InStep(c, Next(c, s, e)) && Conserved(c, Next(c, s, e))
  {
    if e.Write? && PcOf(s, e.call).Read? {
      WroteConserved(c, s, e.call, e.env);
    } else {
      var t := Next(c, s, e);
      assert t.file == s.file && t.written == s.written;
    }
  }

  /** With no lock going stale, calls that append lose and duplicate nothing, in the order they wrote. */
  lemma {:induction false} AppendsConserved(c: Config, es: seq<Event>)
    requires ShowsSomething(c.show) && NeverStale(c, es)
    ensures var s := Run(c, es);
            Exclusive(s) && Recorded(s) && InStep(c, s) && Conserved(c, s)
    decreases |es|
  {
    if es == [] {
      assert Base(c) + [] == Base(c);
    } else {
      var past := es[..|es| - 1];
      var s, e := Run(c, past), es[|es| - 1];
      AppendsConserved(c, past);
      NextExclusive(c, s, e);
      NextRecorded(c, s, e);
      NextConserved(c, s, e);
    }
  }

  // ---------------------------------------------------------------- exactly when nothing is lost

  /** Nothing was lost or duplicated at any point so far. */
  ghost predicate Intact(c: Config, es: seq<Event>)
    decreases |es|
  {
    && InStep(c, Run(c, es)) && Conserved(c, Run(c, es))
    && (es != [] ==> Intact(c, es[..|es| - 1]))
  }

  /** No write of the run rested on a transcript that had changed since it was read. */
  predicate WritesCurrent(c: Config, es: seq<Event>)
    decreases |es|
  {
    es != [] ==> WritesCurrent(c, es[..|es| - 1]) && ReadCurrent(c, Run(c, es[..|es| - 1]), es[|es| - 1])
  }

  lemma SameFront<T>(a: seq<T>, b: seq<T>, c: seq<T>)
    requires a + c == b + c
    ensures a == b
  {
    assert |a| == |b| && a == (a + c)[..|a|] && b == (b + c)[..|b|];
  }

  lemma StaleWriteShows(c: Config, s: State, e: Event)
    requires ShowsSomething(c.show) && InStep(c, s) && InStep(c, Next(c, s, e))
    ensures ReadCurrent(c, s, e)
  {
    var p, t := e.call, Next(c, s, e);
    if e.Write? && PcOf(s, p).Read? && t.written != s.written {
      var seen, more := Transcript(c, PcOf(s, p).seen), Addition(c, c.jobs(p));
      OutputAdds(c, PcOf(s, p).env, e.env, PcOf(s, p).seen, c.jobs(p));
      HoldsMessages(t.file, c.id, seen + more);
      ContributionGrows(c, s.written, p);
      EntriesConcat(c.show, seen, more);
      EntriesTwice(c.show, RawMessages(PcOf(s, p).seen));
      AdditionSettled(c, c.jobs(p));
      SameFront(seen, Transcript(c, s.file), more);
    }
  }

  /** Over any interleaving, broken locks included: intact throughout iff every write had read the current transcript. */
  lemma {:induction false} IntactIffWritesCurrent(c: Config, es: seq<Event>)
    requires ShowsSomething(c.show)
    ensures Intact(c, es) <==> WritesCurrent(c, es)
    decreases |es|
  {
    if es == [] {
      assert Base(c) + [] == Base(c);
    } else {
      var past := es[..|es| - 1];
      var s, e := Run(c, past), es[|es| - 1];
      IntactIffWritesCurrent(c, past);
      if WritesCurrent(c, es) {
        NextConserved(c, s, e);
      } else if Intact(c, es) {
        StaleWriteShows(c, s, e);
        assert false;
      }
    }
  }

  /** A lock that is never broken keeps every write current. */
  lemma {:induction false} NeverStaleIntact(c: Config, es: seq<Event>)
    requires ShowsSomething(c.show) && NeverStale(c, es)
    ensures Intact(c, es) && WritesCurrent(c, es)
    decreases |es|
  {
    AppendsConserved(c, es);
    if es != [] {
      NeverStaleIntact(c, es[..|es| - 1]);
    }
    IntactIffWritesCurrent(c, es);
  }

  // ---------------------------------------------------------------- the order, and who is in it

  /** The calls that wrote, in the order in which they took the lock. */
  function ByLockOrder(locked: seq<nat>, written: seq<nat>): seq<nat> {
    if locked == [] then [] else
    ByLockOrder(locked[..|locked| - 1], written)
      + if locked[|locked| - 1] in written then [locked[|locked| - 1]] else []
  }

  lemma {:induction false} LockOrderKept(locked: seq<nat>, written: seq<nat>, p: nat)
    requires p !in locked
    ensures ByLockOrder(locked, written + [p]) == ByLockOrder(locked, written)
    decreases |locked|
  {
    if locked != [] {
      LockOrderKept(locked[..|locked| - 1], written, p);
    }
  }

  lemma CreatedInLockOrder(locked: seq<nat>, written: seq<nat>, p: nat)
    requires ByLockOrder(locked, written) == written && p !in written
    ensures ByLockOrder(locked + [p], written) == written
  {
    assert (locked + [p])[..|locked|] == locked;
  }

  lemma {:induction false} WroteInLockOrder(before: seq<nat>, written: seq<nat>, p: nat)
    requires ByLockOrder(before + [p], written) == written && p !in before && p !in written
    ensures ByLockOrder(before + [p], written + [p]) == written + [p]
  {
    assert (before + [p])[..|before|] == before;
    assert ByLockOrder(before, written) + [] == ByLockOrder(before, written);
    LockOrderKept(before, written, p);
  }

  lemma NextInLockOrder(c: Config, s: State, e: Event)
    requires Exclusive(s) && Recorded(s) && ByLockOrder(s.locked, s.written) == s.written
    ensures ByLockOrder(Next(c, s, e).locked, Next(c, s, e).written) == Next(c, s, e).written
  {
    var t := Next(c, s, e);
    NextBooks(c, s, e);
    if t.locked != s.locked {
      CreatedInLockOrder(s.locked, s.written, e.call);
    } else if t.written != s.written {
      OwnerInLockOrder(s.locked, s.written, e.call);
    }
  }

  /** How a step changes who has locked and who has written. */
  lemma NextBooks(c: Config, s: State, e: Event)
    requires Exclusive(s) && Recorded(s)
    ensures var t := Next(c, s, e);
            || (t.locked == s.locked && t.written == s.written)
            || (t.locked == s.locked + [e.call] && t.written == s.written && e.call !in s.written)
            || (t.locked == s.locked && t.written == s.written + [e.call] && e.call !in s.written
                && s.locked != [] && s.locked[|s.locked| - 1] == e.call)
  {
  }

  lemma OwnerInLockOrder(locked: seq<nat>, written: seq<nat>, p: nat)
    requires Distinct(locked) && locked != [] && locked[|locked| - 1] == p && p !in written
    requires ByLockOrder(locked, written) == written
    ensures ByLockOrder(locked, written + [p]) == written + [p]
  {
    var before := locked[..|locked| - 1];
    assert locked == before + [p];
    DistinctSplit(before, [p]);
    WroteInLockOrder(before, written, p);
  }

  /** Messages appear in the order in which their calls took the lock. */
  lemma {:induction false} InLockOrder(c: Config, es: seq<Event>)
    requires ShowsSomething(c.show) && NeverStale(c, es)
    ensures ByLockOrder(Run(c, es).locked, Run(c, es).written) == Run(c, es).written
    decreases |es|
  {
    if es != [] {
      InLockOrder(c, es[..|es| - 1]);
      AppendsConserved(c, es[..|es| - 1]);
      NextInLockOrder(c, Run(c, es[..|es| - 1]), es[|es| - 1]);
    }
  }

  ghost predicate AllFinishedWrote(c: Config, s: State) {
    && Usable(c, s.file)
    && (forall p :: PcOf(s, p).Read? ==> Usable(c, PcOf(s, p).seen))
    && (forall p :: p in s.finished && c.jobs(p).Append? ==> p in s.written)
  }

  lemma NextFinishedWrote(c: Config, s: State, e: Event)
    requires AllFinishedWrote(c, s)
    ensures AllFinishedWrote(c, Next(c, s, e))
  {
    var t := Next(c, s, e);
    forall p ensures p != e.call ==> PcOf(t, p) == PcOf(s, p) {
    }
    if t.file != s.file {
      assert Metadata in Fields(t.file.raw);
    }
  }

  /** On an existing session every append that was carried out is among those that wrote - stale or not. */
  lemma {:induction false} FinishedWrote(c: Config, es: seq<Event>)
    requires Usable(c, c.start)
    ensures AllFinishedWrote(c, Run(c, es))
    decreases |es|
  {
    if es != [] {
      FinishedWrote(c, es[..|es| - 1]);
      NextFinishedWrote(c, Run(c, es[..|es| - 1]), es[|es| - 1]);
    }
  }

  // ---------------------------------------------------------------- a call that nothing disturbs

  lemma FourSteps(c: Config, es: seq<Event>, a: Event, b: Event, d: Event, e: Event)
    ensures Run(c, es + [a, b, d, e]) == Next(c, Next(c, Next(c, Next(c, Run(c, es), a), b), d), e)
  {
    assert es + [a, b] == es + [a] + [b] && es + [a, b, d, e] == es + [a, b] + [d] + [e];
    TwoSteps(c, es, a, b);
    TwoSteps(c, es + [a, b], d, e);
  }

  lemma TwoSteps(c: Config, es: seq<Event>, a: Event, b: Event)
    ensures Run(c, es + [a] + [b]) == Next(c, Next(c, Run(c, es), a), b)
  {
    RunMore(c, es, a);
    RunMore(c, es + [a], b);
  }

  lemma RunMore(c: Config, es: seq<Event>, e: Event)
    ensures Run(c, es + [e]) == Next(c, Run(c, es), e)
  {
    assert (es + [e])[..|es|] == es;
  }

  /** A waiting call that finds the lock free and is left alone does what its body under the lock does, and
      leaves the lock free again; a waiting call that finds the lock taken does nothing. */
  lemma UndisturbedCall(c: Config, es: seq<Event>, p: nat, now: int, env: Env, env2: Env)
    requires PcOf(Run(c, es), p).Waiting?
    ensures var s, r := Run(c, es), Run(c, es + [Create(p, now), Load(p, env), Write(p, env2), Unlock(p)]);
            var out := Output(c.show, c.strict, env2, c.id, LoadUnlocked(c.show, c.strict, env, c.id, s.file), c.jobs(p));
            && (s.lock.Some? ==> r == s)
            && (s.lock.None? ==>
                  && r.lock.None? && PcOf(r, p) == Gone && p in r.finished
                  && r.locked == s.locked + [p]
                  && (out.Some? ==> r.file == Holding(Stored(out.value)) && r.written == s.written + [p])
                  && (out.None? ==> r.file == s.file && r.written == s.written))
  {
    FourSteps(c, es, Create(p, now), Load(p, env), Write(p, env2), Unlock(p));
  }

  ghost predicate HeldInside(s: State) {
    s.lock.Some? ==> Inside(PcOf(s, s.lock.value.owner))
  }

  /** Unless a call crashes inside, or removes a lock that is not its own, the lock is there only while its
      owner is at work: nobody waits for a lock that nobody will give back. */
  lemma {:induction false} LockFreed(c: Config, es: seq<Event>)
    requires NeverStale(c, es)
    requires forall i :: 0 <= i < |es| && es[i].Crash? ==> !Inside(PcOf(Run(c, es[..i]), es[i].call))
    ensures HeldInside(Run(c, es)) && Exclusive(Run(c, es))
    decreases |es|
  {
    if es != [] {
      var n := |es| - 1;
      var s := Run(c, es[..n]);
      forall i | 0 <= i < n && es[..n][i].Crash? ensures !Inside(PcOf(Run(c, es[..n][..i]), es[..n][i].call)) {
        assert es[..n][..i] == es[..i];
      }
      LockFreed(c, es[..n]);
      NextExclusive(c, s, es[n]);
      HeldStep(c, s, es[n]);
    }
  }

  lemma HeldStep(c: Config, s: State, e: Event)
    requires Exclusive(s) && HeldInside(s) && (e.Crash? ==> !Inside(PcOf(s, e.call)))
    ensures HeldInside(Next(c, s, e))
  {
    var t := Next(c, s, e);
    forall p ensures p != e.call ==> PcOf(t, p) == PcOf(s, p) {
    }
  }

  // ---------------------------------------------------------------- what a stale lock costs

  function TwoAppends(show: Json -> string): Config {
    Config(show, true, "s", 60, p => Append(Typed("user", Int(p))), Holding(Obj(map[Messages := Arr([])])))
  }

  lemma RunPrefix(c: Config, es: seq<Event>, k: nat)
    requires k < |es|
    ensures Run(c, es[..k + 1]) == Next(c, Run(c, es[..k]), es[k])
  {
    assert es[..k + 1][..k] == es[..k];
  }

  /** The slow call has loaded; the other breaks its lock, appends and leaves; the slow one writes. */
  function Overtaken(env: Env): seq<Event> {
    [Create(0, 0), Load(0, env), Stat(1, 61), Unlink(1), Create(1, 61), Load(1, env), Write(1, env), Unlock(1), Write(0, env)]
  }

  lemma SlowLoaded(show: Json -> string, env: Env)
    ensures Run(TwoAppends(show), Overtaken(env)[..2])
         == State(TwoAppends(show).start, Some(Lock(0, 0)), map[0 := Read(TwoAppends(show).start, env)], [0], [], {})
  {
    var c, es := TwoAppends(show), Overtaken(env);
    assert es[..0] == [];
    RunPrefix(c, es, 0);
    RunPrefix(c, es, 1);
  }

  lemma LockBroken(show: Json -> string, env: Env)
    ensures var s := Run(TwoAppends(show), Overtaken(env)[..4]);
            s == State(TwoAppends(show).start, None, map[0 := Read(TwoAppends(show).start, env), 1 := Waiting], [0], [], {})
  {
    var c, es := TwoAppends(show), Overtaken(env);
    SlowLoaded(show, env);
    RunPrefix(c, es, 2);
    RunPrefix(c, es, 3);
  }

  lemma SecondLocked(show: Json -> string, env: Env)
    ensures var s, start := Run(TwoAppends(show), Overtaken(env)[..5]), TwoAppends(show).start;
            s.file == start && s.pcs == map[0 := Read(start, env), 1 := Locked] && s.written == []
  {
    LockBroken(show, env);
    RunPrefix(TwoAppends(show), Overtaken(env), 4);
  }

  lemma SecondLoaded(show: Json -> string, env: Env)
    ensures var s, start := Run(TwoAppends(show), Overtaken(env)[..6]), TwoAppends(show).start;
            s.file == start && s.pcs == map[0 := Read(start, env), 1 := Read(start, env)] && s.written == []
  {
    SecondLocked(show, env);
    RunPrefix(TwoAppends(show), Overtaken(env), 5);
  }

  lemma SecondWrote(show: Json -> string, env: Env)
    ensures var s := Run(TwoAppends(show), Overtaken(env)[..7]);
            PcOf(s, 0) == Read(TwoAppends(show).start, env) && s.written == [1]
  {
    var c := TwoAppends(show);
    SecondLoaded(show, env);
    assert Messages in LoadUnlocked(show, true, env, "s", c.start);
    RunPrefix(c, Overtaken(env), 6);
  }

  lemma OvertakenRun(show: Json -> string, env: Env)
    ensures var s := Run(TwoAppends(show), Overtaken(env)[..8]);
            PcOf(s, 0) == Read(TwoAppends(show).start, env) && s.written == [1]
  {
    SecondWrote(show, env);
    RunPrefix(TwoAppends(show), Overtaken(env), 7);
  }

  /** Once a slow call's lock is broken, its write loses what was appended meanwhile. */
  lemma StaleLockLoses(show: Json -> string, env: Env)
    ensures var s := Run(TwoAppends(show), Overtaken(env));
            s.written == [1, 0] && |RawMessages(s.file)| == 1
  {
    var c := TwoAppends(show);
    OvertakenRun(show, env);
    RunPrefix(c, Overtaken(env), 8);
    assert Overtaken(env)[..9] == Overtaken(env);
    var data := LoadUnlocked(show, true, env, "s", c.start);
    assert Get(data, Messages) == Arr([]);
    var out := Appended(show, env, "s", data, Typed("user", Int(0)));
    assert Get(Stored(out).fields, Messages) == Arr(out.messages);
  }
}
