/**
 The session payload: normalising messages, completing metadata, repairing what was loaded and merging a
 metadata patch (forgepilot_sdk/session.py). `show` is Python's `str` on values that are not strings.
 Dictionaries are maps, so key order is not modelled.
 */
module SessionStore {

  /** A dictionary key: one of the names the code spells out, or any other. */
  datatype Key =
    | Id | Cwd | Model | CreatedAt | UpdatedAt | MessageCount
    | Metadata | Messages | Role | Content
    | Other(name: string)

  datatype Json =
    | Null
    | Bool(b: bool)
    | Int(i: int)
    | Float(r: real)
    | Str(s: string)
    | Arr(items: seq<Json>)
    | Obj(fields: map<Key, Json>)

  predicate Truthy(v: Json) {
    match v
    case Null => false
    case Bool(b) => b
    case Int(i) => i != 0
    case Float(r) => r != 0.0
    case Str(s) => s != ""
    case Arr(items) => items != []
    case Obj(fields) => fields != map[]
  }

  /** `d.get(key)`. */
  function Get(d: map<Key, Json>, key: Key): Json {
    if key in d then d[key] else Null
  }

  function ShowAs(show: Json -> string, v: Json): string {
    if v.Str? then v.s else show(v)
  }

  /** `str(v or fallback)`. */
  function ShowOr(show: Json -> string, v: Json, fallback: string): string {
    if Truthy(v) then ShowAs(show, v) else fallback
  }

  /** Python's `==` between a value and a count: booleans and whole floats are numbers. */
  predicate CountIs(v: Json, n: nat) {
    match v
    case Bool(b) => (if b then 1 else 0) == n
    case Int(i) => i == n
    case Float(r) => r == n as real
    case _ => false
  }

  // ---------------------------------------------------------------- messages

  datatype Incoming = Typed(role: string, content: Json) | Untyped(value: Json)

  function Message(role: string, content: Json): Json {
    Obj(map[Role := Str(role), Content := content])
  }

  function NormalizeMessage(show: Json -> string, m: Incoming): Json {
    match m
    case Typed(role, content) => Message(role, content)
    case Untyped(Obj(d)) => Message(ShowOr(show, Get(d, Role), "user"), Get(d, Content))
    case Untyped(v) => Message("user", Str(ShowAs(show, v)))
  }

  function NormalizeAll(show: Json -> string, ms: seq<Json>): seq<Json> {
    seq(|ms|, i requires 0 <= i < |ms| => NormalizeMessage(show, Untyped(ms[i])))
  }

  // ---------------------------------------------------------------- what a message becomes

  /** What Python takes for false. */
  predicate Falsy(v: Json) {
    v in {Null, Bool(false), Int(0), Float(0.0), Str(""), Arr([]), Obj(map[])}
  }

  /** The role a message has in the file. */
  function RoleOf(show: Json -> string, m: Incoming): string {
    match m
    case Typed(role, _) => if role == "" then "user" else role
    case Untyped(v) =>
      if !v.Obj? || Role !in v.fields || Falsy(v.fields[Role]) then "user"
      else if v.fields[Role].Str? then v.fields[Role].s else show(v.fields[Role])
  }

  /** The content it has there. */
  function ContentOf(show: Json -> string, m: Incoming): Json {
    match m
    case Typed(_, content) => content
    case Untyped(v) =>
      if v.Str? then v else if !v.Obj? then Str(show(v)) else if Content in v.fields then v.fields[Content] else Null
  }

  /** `v` is a dictionary with this role, this content and nothing else. */
  predicate Says(v: Json, role: string, content: Json) {
    && v.Obj? && v.fields.Keys == {Role, Content}
    && v.fields[Role] == Str(role) && v.fields[Content] == content
  }

  /** A stored message keeps role and content of a typed message or of a dictionary; a missing or falsy
      role is "user"; any other value is stored as what "user" says in its text. */
  lemma MessageSays(show: Json -> string, m: Incoming)
    requires ShowsSomething(show)
    ensures m.Typed? ==> Says(NormalizeMessage(show, m), m.role, m.content)
    ensures m.Untyped? ==> Says(NormalizeMessage(show, m), RoleOf(show, m), ContentOf(show, m))
    ensures Says(NormalizeMessage(show, Untyped(NormalizeMessage(show, m))), RoleOf(show, m), ContentOf(show, m))
  {
  }

  lemma SaysOne(a: Json, b: Json, role: string, content: Json)
    requires Says(a, role, content) && Says(b, role, content)
    ensures a == b
  {
    assert a.fields == b.fields;
  }

  // ---------------------------------------------------------------- payloads

  datatype Payload = Payload(metadata: map<Key, Json>, messages: seq<Json>)

  /** What the clock, the directory and the configuration answer during one call. */
  datatype Env = Env(created: string, updated: string, later: string, cwd: string, model: string)

  ghost predicate Answers(env: Env) {
    env.created != "" && env.updated != "" && env.later != "" && env.cwd != "" && env.model != ""
  }

  ghost predicate ShowsSomething(show: Json -> string) {
    forall v :: show(v) != ""
  }

  function Defaults(show: Json -> string, env: Env, id: string, meta: map<Key, Json>, count: nat): map<Key, Json> {
    meta[Id := Str(id)][
      Cwd := Str(ShowOr(show, Get(meta, Cwd), env.cwd))][
      Model := Str(ShowOr(show, Get(meta, Model), env.model))][
      CreatedAt := Str(ShowOr(show, Get(meta, CreatedAt), env.created))][
      UpdatedAt := Str(ShowOr(show, Get(meta, UpdatedAt), env.updated))][
      MessageCount := Int(count)]
  }

  function EnsurePayload(show: Json -> string, env: Env, id: string, ms: seq<Json>, meta: map<Key, Json>): Payload {
    Payload(Defaults(show, env, id, meta, |ms|), NormalizeAll(show, ms))
  }

  /** The payload as the file holds it. */
  function Stored(p: Payload): Json {
    Obj(map[Metadata := Obj(p.metadata), Messages := Arr(p.messages)])
  }

  datatype Loaded = Loaded(payload: Payload, repaired: bool)

  function Fields(raw: Json): map<Key, Json> {
    if raw.Obj? then raw.fields else map[]
  }

  function Items(raw: Json): seq<Json> {
    if raw.Arr? then raw.items else []
  }

  predicate Standard(key: Key) {
    key.Id? || key.Cwd? || key.Model? || key.CreatedAt? || key.UpdatedAt? || key.MessageCount?
  }

  /** What a loaded session's metadata says under `key` afterwards: a truthy value stays, whatever its type. */
  function Value(show: Json -> string, env: Env, id: string, meta: map<Key, Json>, count: nat, key: Key): Json {
    if key == Id then Str(id)
    else if key == MessageCount then Int(count)
    else if key in meta && (!Standard(key) || Truthy(meta[key])) then meta[key]
    else if key == Cwd then Str(env.cwd)
    else if key == Model then Str(env.model)
    else if key == CreatedAt then Str(if key in meta then env.later else env.created)
    else if key == UpdatedAt then
      Str(if key in meta then ShowAs(show, Created(env, meta)) else env.updated)
    else Null
  }

  function Created(env: Env, meta: map<Key, Json>): Json {
    if Truthy(Get(meta, CreatedAt)) then meta[CreatedAt]
    else Str(if CreatedAt in meta then env.later else env.created)
  }

  function StandardKeys(): set<Key> {
    {Id, Cwd, Model, CreatedAt, UpdatedAt, MessageCount}
  }

  function Completed(show: Json -> string, env: Env, id: string, meta: map<Key, Json>, count: nat): map<Key, Json> {
    map key | key in meta.Keys + StandardKeys() :: Value(show, env, id, meta, count, key)
  }

  /** A standard field that is there but wrong. One that is missing is filled in without being reported. */
  predicate Wrong(show: Json -> string, id: string, meta: map<Key, Json>, count: nat) {
    || (Id in meta && ShowOr(show, meta[Id], "") != id)
    || (MessageCount in meta && !CountIs(meta[MessageCount], count))
    || (Cwd in meta && !Truthy(meta[Cwd]))
    || (Model in meta && !Truthy(meta[Model]))
    || (CreatedAt in meta && !Truthy(meta[CreatedAt]))
    || (UpdatedAt in meta && !Truthy(meta[UpdatedAt]))
  }

  function Normalized(show: Json -> string, env: Env, id: string, raw: Json): Loaded {
    var meta, ms := Fields(Get(Fields(raw), Metadata)), Items(Get(Fields(raw), Messages));
    Loaded(Payload(Completed(show, env, id, meta, |ms|), NormalizeAll(show, ms)),
           || !Get(Fields(raw), Metadata).Obj?
           || !Get(Fields(raw), Messages).Arr?
           || Wrong(show, id, meta, |ms|))
  }

  lemma SameMap(m: map<Key, Json>, show: Json -> string, env: Env, id: string, meta: map<Key, Json>, count: nat)
    requires forall key :: key in m <==> key in meta || Standard(key)
    requires forall key :: key in m ==> m[key] == Value(show, env, id, meta, count, key)
    ensures m == Completed(show, env, id, meta, count)
  {
  }

  lemma DefaultsComplete(show: Json -> string, env: Env, id: string)
    ensures EnsurePayload(show, env, id, [], map[]) == Payload(Completed(show, env, id, map[], 0), NormalizeAll(show, []))
  {
    SameMap(EnsurePayload(show, env, id, [], map[]).metadata, show, env, id, map[], 0);
  }

  method FillIfFalsy(meta: map<Key, Json>, repaired: bool, key: Key, fallback: string)
    returns (filled: map<Key, Json>, reported: bool)
    ensures filled == meta[key := Filled(meta, key, fallback)]
    ensures reported == (repaired || !Truthy(Get(meta, key)))
  {
    filled, reported := meta, repaired;
    if !Truthy(Get(meta, key)) {
      reported := true;
      filled := filled[key := Str(fallback)];
    } else {
      assert meta == meta[key := meta[key]];
    }
  }

  function Filled(meta: map<Key, Json>, key: Key, fallback: string): Json {
    if Truthy(Get(meta, key)) then Get(meta, key) else Str(fallback)
  }

  /** The defaults under the file's own fields, before anything is checked. */
  function Underlaid(show: Json -> string, env: Env, id: string, meta: map<Key, Json>, count: nat): map<Key, Json> {
    Defaults(show, env, id, meta, count) + meta
  }

  lemma UnderlaidAt(show: Json -> string, env: Env, id: string, meta: map<Key, Json>, count: nat)
    requires Answers(env)
    ensures var m := Underlaid(show, env, id, meta, count);
            && (forall key :: key in m <==> key in meta || Standard(key))
            && (forall key :: key in meta ==> m[key] == meta[key])
            && (Id !in meta ==> m[Id] == Str(id)) && (MessageCount !in meta ==> m[MessageCount] == Int(count))
            && (Cwd !in meta ==> m[Cwd] == Str(env.cwd)) && (Model !in meta ==> m[Model] == Str(env.model))
            && (CreatedAt !in meta ==> m[CreatedAt] == Str(env.created))
            && (UpdatedAt !in meta ==> m[UpdatedAt] == Str(env.updated))
  {
  }

  lemma FilledComplete(show: Json -> string, env: Env, id: string, meta: map<Key, Json>, count: nat, key: Key)
    requires Answers(env)
    ensures var m := Underlaid(show, env, id, meta, count);
            && (key == Cwd ==> Filled(m, Cwd, env.cwd) == Value(show, env, id, meta, count, key))
            && (key == Model ==> Filled(m, Model, env.model) == Value(show, env, id, meta, count, key))
  {
    UnderlaidAt(show, env, id, meta, count);
  }

  lemma TimesComplete(show: Json -> string, env: Env, id: string, meta: map<Key, Json>, count: nat, key: Key)
    requires Answers(env)
    ensures var m := Underlaid(show, env, id, meta, count);
            && (key == CreatedAt ==> Filled(m, CreatedAt, env.later) == Value(show, env, id, meta, count, key))
            && var updated := Filled(m, UpdatedAt, ShowAs(show, Filled(m, CreatedAt, env.later)));
            && (key == UpdatedAt ==> updated == Value(show, env, id, meta, count, key))
  {
    UnderlaidAt(show, env, id, meta, count);
  }

  lemma {:induction false} ChecksComplete(show: Json -> string, env: Env, id: string, meta: map<Key, Json>, count: nat, final: map<Key, Json>)
    requires Answers(env)
    requires var m := Underlaid(show, env, id, meta, count);
             final == m[Id := Str(id)][MessageCount := Int(count)][CreatedAt := Filled(m, CreatedAt, env.later)][
                        UpdatedAt := Filled(m, UpdatedAt, ShowAs(show, Filled(m, CreatedAt, env.later)))][
                        Cwd := Filled(m, Cwd, env.cwd)][Model := Filled(m, Model, env.model)]
    ensures final == Completed(show, env, id, meta, count)
  {
    UnderlaidAt(show, env, id, meta, count);
    forall key | key in final ensures final[key] == Value(show, env, id, meta, count, key) {
      CheckedAt(show, env, id, meta, count, final, key);
    }
    SameMap(final, show, env, id, meta, count);
  }

  lemma CheckedAt(
    show: Json -> string, env: Env, id: string, meta: map<Key, Json>, count: nat, final: map<Key, Json>, key: Key)
    requires Answers(env) && key in final
    requires var m := Underlaid(show, env, id, meta, count);
             final == m[Id := Str(id)][MessageCount := Int(count)][CreatedAt := Filled(m, CreatedAt, env.later)][
                        UpdatedAt := Filled(m, UpdatedAt, ShowAs(show, Filled(m, CreatedAt, env.later)))][
                        Cwd := Filled(m, Cwd, env.cwd)][Model := Filled(m, Model, env.model)]
    ensures final[key] == Value(show, env, id, meta, count, key)
  {
    UnderlaidAt(show, env, id, meta, count);
    FilledComplete(show, env, id, meta, count, key);
    TimesComplete(show, env, id, meta, count, key);
  }

  lemma ChecksReport(show: Json -> string, env: Env, id: string, meta: map<Key, Json>, count: nat)
    requires Answers(env)
    ensures var m := Underlaid(show, env, id, meta, count);
            Wrong(show, id, meta, count)
              == (|| ShowOr(show, Get(m, Id), "") != id || !CountIs(Get(m, MessageCount), count)
                  || !Truthy(Get(m, CreatedAt)) || !Truthy(Get(m, UpdatedAt))
                  || !Truthy(Get(m, Cwd)) || !Truthy(Get(m, Model)))
  {
    UnderlaidAt(show, env, id, meta, count);
  }

  /** The metadata part of `_normalize_loaded_payload`, on a dictionary that is already a copy. */
  method RepairMetadata(show: Json -> string, env: Env, id: string, metadata: map<Key, Json>, count: nat)
    returns (merged: map<Key, Json>, repaired: bool)
    requires Answers(env)
    ensures merged == Completed(show, env, id, metadata, count) && repaired == Wrong(show, id, metadata, count)
  {
    ChecksReport(show, env, id, metadata, count);
    merged := Defaults(show, env, id, metadata, count) + metadata;
    repaired := ShowOr(show, Get(merged, Id), "") != id;
    merged := merged[Id := Str(id)];
    if !CountIs(Get(merged, MessageCount), count) {
      repaired := true;
    }
    merged := merged[MessageCount := Int(count)];
    merged, repaired := FillIfFalsy(merged, repaired, CreatedAt, env.later);
    merged, repaired := FillIfFalsy(merged, repaired, UpdatedAt, ShowAs(show, Get(merged, CreatedAt)));
    merged, repaired := FillIfFalsy(merged, repaired, Cwd, env.cwd);
    merged, repaired := FillIfFalsy(merged, repaired, Model, env.model);
    ChecksComplete(show, env, id, metadata, count, merged);
  }

  method NormalizeLoadedPayload(show: Json -> string, env: Env, id: string, raw: Json) returns (l: Loaded)
    requires Answers(env)
    ensures l == Normalized(show, env, id, raw)
  {
    if !raw.Obj? {
      DefaultsComplete(show, env, id);
      return Loaded(EnsurePayload(show, env, id, [], map[]), true);
    }
    var rawMetadata, rawMessages := Get(raw.fields, Metadata), Get(raw.fields, Messages);
    var metadata, messages := Fields(rawMetadata), Items(rawMessages);
    var merged, wrong := RepairMetadata(show, env, id, metadata, |messages|);
    l := Loaded(Payload(merged, NormalizeAll(show, messages)), !rawMetadata.Obj? || !rawMessages.Arr? || wrong);
  }

  // ---------------------------------------------------------------- repair settles

  lemma NormalizeMessageTwice(show: Json -> string, m: Incoming)
    requires ShowsSomething(show)
    ensures var once := NormalizeMessage(show, Untyped(NormalizeMessage(show, m)));
            NormalizeMessage(show, Untyped(once)) == once
  {
  }

  lemma NormalizeUntypedTwice(show: Json -> string, v: Json)
    requires ShowsSomething(show)
    ensures var once := NormalizeMessage(show, Untyped(v)); NormalizeMessage(show, Untyped(once)) == once
  {
  }

  lemma NormalizeAllTwice(show: Json -> string, ms: seq<Json>)
    requires ShowsSomething(show)
    ensures NormalizeAll(show, NormalizeAll(show, ms)) == NormalizeAll(show, ms)
  {
    forall i | 0 <= i < |ms|
      ensures NormalizeAll(show, NormalizeAll(show, ms))[i] == NormalizeAll(show, ms)[i]
    {
      NormalizeUntypedTwice(show, ms[i]);
    }
  }

  lemma CompletedAt(show: Json -> string, env: Env, id: string, meta: map<Key, Json>, count: nat, key: Key)
    requires ShowsSomething(show) && Answers(env)
    ensures var once := Completed(show, env, id, meta, count);
            && (key in once <==> key in meta || Standard(key))
            && (key == Id ==> once[key] == Str(id)) && (key == MessageCount ==> once[key] == Int(count))
            && (Standard(key) && key != Id && key != MessageCount ==> Truthy(once[key]))
  {
    var once := Completed(show, env, id, meta, count);
    assert Standard(key) ==> key in StandardKeys();
    assert key in once ==> once[key] == Value(show, env, id, meta, count, key);
  }

  lemma CompletedTwice(show: Json -> string, env: Env, env2: Env, id: string, meta: map<Key, Json>, count: nat)
    requires ShowsSomething(show) && Answers(env)
    ensures var once := Completed(show, env, id, meta, count);
            Completed(show, env2, id, once, count) == once
  {
    var once := Completed(show, env, id, meta, count);
    forall key ensures key in once <==> key in once || Standard(key)
               ensures key in once ==> once[key] == Value(show, env2, id, once, count, key) {
      CompletedAt(show, env, id, meta, count, key);
    }
    SameMap(once, show, env2, id, once, count);
  }

  lemma CompletedRight(show: Json -> string, env: Env, id: string, meta: map<Key, Json>, count: nat)
    requires ShowsSomething(show) && Answers(env)
    ensures !Wrong(show, id, Completed(show, env, id, meta, count), count)
  {
    CompletedAt(show, env, id, meta, count, Id);
    CompletedAt(show, env, id, meta, count, MessageCount);
    CompletedAt(show, env, id, meta, count, Cwd);
    CompletedAt(show, env, id, meta, count, Model);
    CompletedAt(show, env, id, meta, count, CreatedAt);
    CompletedAt(show, env, id, meta, count, UpdatedAt);
  }

  /** Field by field, what loading makes of the metadata: id and count are set; any other field that is
      there and, if a standard one, not falsy stays as it is; a missing or falsy working directory or
      model is the configured one, a missing or falsy time that of the load. Nothing else is there. */
  lemma CompletedSays(show: Json -> string, env: Env, id: string, meta: map<Key, Json>, count: nat)
    requires Answers(env)
    ensures var m := Completed(show, env, id, meta, count);
            && (forall key :: key in m <==> key in meta || key in {Id, Cwd, Model, CreatedAt, UpdatedAt, MessageCount})
            && m[Id] == Str(id) && m[MessageCount] == Int(count)
            && (forall key :: key in meta && key !in {Id, Cwd, Model, CreatedAt, UpdatedAt, MessageCount} ==> m[key] == meta[key])
            && (forall key :: key in meta && key in {Cwd, Model, CreatedAt, UpdatedAt} && !Falsy(meta[key]) ==> m[key] == meta[key])
            && (Cwd !in meta || Falsy(meta[Cwd]) ==> m[Cwd] == Str(env.cwd))
            && (Model !in meta || Falsy(meta[Model]) ==> m[Model] == Str(env.model))
            && (CreatedAt !in meta ==> m[CreatedAt] == Str(env.created))
            && (CreatedAt in meta && Falsy(meta[CreatedAt]) ==> m[CreatedAt] == Str(env.later))
            && (UpdatedAt !in meta ==> m[UpdatedAt] == Str(env.updated))
            && (UpdatedAt in meta && Falsy(meta[UpdatedAt]) ==> m[UpdatedAt] == Str(ShowAs(show, m[CreatedAt])))
  {
    assert StandardKeys() == {Id, Cwd, Model, CreatedAt, UpdatedAt, MessageCount};
    assert forall v :: Truthy(v) <==> !Falsy(v);
  }

  /** Python's `==` with a count. */
  predicate Equals(v: Json, n: nat) {
    v == Int(n) || v == Float(n as real) || (n == 0 && v == Bool(false)) || (n == 1 && v == Bool(true))
  }

  /** What is reported as repaired: metadata that is no dictionary, messages that are no list, or a standard
      field that is there and wrong - another id, another count, or anything falsy. A field that is missing
      and messages that are rewritten are not reported. */
  lemma RepairReported(show: Json -> string, env: Env, id: string, raw: Json)
    ensures var fields := if raw.Obj? then raw.fields else map[];
            var meta := if Metadata in fields && fields[Metadata].Obj? then fields[Metadata].fields else map[];
            var count := if Messages in fields && fields[Messages].Arr? then |fields[Messages].items| else 0;
            Normalized(show, env, id, raw).repaired <==>
              || !(Metadata in fields && fields[Metadata].Obj?) || !(Messages in fields && fields[Messages].Arr?)
              || (Id in meta && TextOr(show, meta, Id, "") != id)
              || (MessageCount in meta && !Equals(meta[MessageCount], count))
              || exists key :: key in meta && key in {Cwd, Model, CreatedAt, UpdatedAt} && Falsy(meta[key])
  {
    assert forall v :: Truthy(v) <==> !Falsy(v);
    assert forall v, n: nat :: CountIs(v, n) <==> Equals(v, n);
    var meta := Fields(Get(Fields(raw), Metadata));
    assert (exists key :: key in meta && key in {Cwd, Model, CreatedAt, UpdatedAt} && Falsy(meta[key]))
      <==> (Cwd in meta && Falsy(meta[Cwd])) || (Model in meta && Falsy(meta[Model]))
           || (CreatedAt in meta && Falsy(meta[CreatedAt])) || (UpdatedAt in meta && Falsy(meta[UpdatedAt]));
  }

  /** Field by field, the metadata that is written: id, count and time are set; working directory, model
      and creation time are texts, the configured ones where nothing was said; other fields are kept. */
  lemma DefaultsSay(show: Json -> string, env: Env, id: string, meta: map<Key, Json>, count: nat)
    ensures var m := Defaults(show, env, id, meta, count);
            && (forall key :: key in m <==> key in meta || key in {Id, Cwd, Model, CreatedAt, UpdatedAt, MessageCount})
            && m[Id] == Str(id) && m[MessageCount] == Int(count)
            && (forall key :: key in meta && key !in {Id, Cwd, Model, CreatedAt, UpdatedAt, MessageCount} ==> m[key] == meta[key])
            && m[Cwd] == Str(TextOr(show, meta, Cwd, env.cwd)) && m[Model] == Str(TextOr(show, meta, Model, env.model))
            && m[CreatedAt] == Str(TextOr(show, meta, CreatedAt, env.created))
            && m[UpdatedAt] == Str(TextOr(show, meta, UpdatedAt, env.updated))
  {
    assert forall v :: Truthy(v) <==> !Falsy(v);
  }

  /** The text of a field, or `fallback` where it is missing or falsy. */
  function TextOr(show: Json -> string, meta: map<Key, Json>, key: Key, fallback: string): string {
    if key !in meta || Falsy(meta[key]) then fallback
    else if meta[key].Str? then meta[key].s else show(meta[key])
  }

  /** Loading what was repaired changes nothing and reports nothing, whatever the clock says by then. */
  lemma {:induction false} RepairSettles(show: Json -> string, env: Env, env2: Env, id: string, raw: Json)
    requires ShowsSomething(show) && Answers(env)
    ensures var first := Normalized(show, env, id, raw).payload;
            && Normalized(show, env2, id, Stored(first)) == Loaded(first, false)
            && Get(first.metadata, Id) == Str(id)
            && Get(first.metadata, MessageCount) == Int(|first.messages|)
  {
    var meta, ms := Fields(Get(Fields(raw), Metadata)), Items(Get(Fields(raw), Messages));
    var first := Normalized(show, env, id, raw).payload;
    assert Get(Stored(first).fields, Metadata) == Obj(first.metadata);
    assert Get(Stored(first).fields, Messages) == Arr(first.messages);
    NormalizeAllTwice(show, ms);
    CompletedTwice(show, env, env2, id, meta, |ms|);
    CompletedRight(show, env, id, meta, |ms|);
    CompletedAt(show, env, id, meta, |ms|, Id);
    CompletedAt(show, env, id, meta, |ms|, MessageCount);
  }

  /** A message as the code writes it: a role that says something, a content, and nothing else. */
  predicate WrittenMessage(m: Json) {
    m.Obj? && m.fields.Keys == {Role, Content} && m.fields[Role].Str? && m.fields[Role].s != ""
  }

  /** Metadata with all six standard fields, the right id and count, and nothing falsy among the rest. */
  predicate WrittenMetadata(id: string, meta: map<Key, Json>, count: nat) {
    && Id in meta && meta[Id] == Str(id)
    && MessageCount in meta && meta[MessageCount] == Int(count)
    && Truthy(Get(meta, Cwd)) && Truthy(Get(meta, Model))
    && Truthy(Get(meta, CreatedAt)) && Truthy(Get(meta, UpdatedAt))
  }

  /** A file that loading leaves as it is. */
  predicate Settled(id: string, raw: Json) {
    && raw.Obj? && raw.fields.Keys == {Metadata, Messages}
    && raw.fields[Metadata].Obj? && raw.fields[Messages].Arr?
    && WrittenMetadata(id, raw.fields[Metadata].fields, |raw.fields[Messages].items|)
    && forall i :: 0 <= i < |raw.fields[Messages].items| ==> WrittenMessage(raw.fields[Messages].items[i])
  }

  lemma WrittenMessageIff(show: Json -> string, m: Json)
    requires ShowsSomething(show)
    ensures NormalizeMessage(show, Untyped(m)) == m <==> WrittenMessage(m)
  {
    if WrittenMessage(m) {
      assert m.fields == map[Role := m.fields[Role], Content := m.fields[Content]];
    }
  }

  lemma WrittenMessagesIff(show: Json -> string, ms: seq<Json>)
    requires ShowsSomething(show)
    ensures NormalizeAll(show, ms) == ms <==> forall i :: 0 <= i < |ms| ==> WrittenMessage(ms[i])
  {
    forall i | 0 <= i < |ms| ensures NormalizeAll(show, ms)[i] == ms[i] <==> WrittenMessage(ms[i]) {
      WrittenMessageIff(show, ms[i]);
    }
  }

  lemma WrittenMetadataIff(show: Json -> string, env: Env, id: string, meta: map<Key, Json>, count: nat)
    requires ShowsSomething(show) && Answers(env)
    ensures Completed(show, env, id, meta, count) == meta <==> WrittenMetadata(id, meta, count)
    ensures WrittenMetadata(id, meta, count) ==> !Wrong(show, id, meta, count)
  {
    if WrittenMetadata(id, meta, count) {
      SameMap(meta, show, env, id, meta, count);
    } else if Completed(show, env, id, meta, count) == meta {
      CompletedStandard(show, env, id, meta, count);
    }
  }

  lemma CompletedStandard(show: Json -> string, env: Env, id: string, meta: map<Key, Json>, count: nat)
    requires ShowsSomething(show) && Answers(env)
    ensures WrittenMetadata(id, Completed(show, env, id, meta, count), count)
  {
    CompletedAt(show, env, id, meta, count, Id);
    CompletedAt(show, env, id, meta, count, MessageCount);
    CompletedAt(show, env, id, meta, count, Cwd);
    CompletedAt(show, env, id, meta, count, Model);
    CompletedAt(show, env, id, meta, count, CreatedAt);
    CompletedAt(show, env, id, meta, count, UpdatedAt);
  }

  /** Loading gives back exactly what the file holds if and only if the file is settled, and then it is
      not reported as repaired. */
  lemma UnchangedIffSettled(show: Json -> string, env: Env, id: string, raw: Json)
    requires ShowsSomething(show) && Answers(env)
    ensures Stored(Normalized(show, env, id, raw).payload) == raw <==> Settled(id, raw)
    ensures Settled(id, raw) ==> !Normalized(show, env, id, raw).repaired
  {
    var meta, ms := Fields(Get(Fields(raw), Metadata)), Items(Get(Fields(raw), Messages));
    WrittenMessagesIff(show, ms);
    WrittenMetadataIff(show, env, id, meta, |ms|);
    var out := Stored(Normalized(show, env, id, raw).payload);
    assert out.fields.Keys == {Metadata, Messages};
    assert out.fields[Metadata] == Obj(Completed(show, env, id, meta, |ms|)) && out.fields[Messages] == Arr(NormalizeAll(show, ms));
    if Settled(id, raw) {
      assert out.fields == raw.fields;
    }
  }

  /** Unreported is not unchanged: a missing field is filled in and messages are rewritten silently. */
  lemma SilentRepair(show: Json -> string, env: Env)
    ensures var raw := Obj(map[Metadata := Obj(map[]), Messages := Arr([Str("hi")])]);
            var l := Normalized(show, env, "s", raw);
            !l.repaired && l.payload.messages == [Message("user", Str("hi"))] && CreatedAt in l.payload.metadata
  {
    var raw := Obj(map[Metadata := Obj(map[]), Messages := Arr([Str("hi")])]);
    assert Get(raw.fields, Metadata) == Obj(map[]) && Get(raw.fields, Messages) == Arr([Str("hi")]);
  }

  // ---------------------------------------------------------------- the metadata patch

  function DeepMerge(base: map<Key, Json>, patch: map<Key, Json>): map<Key, Json>
    decreases Obj(patch)
  {
    map key | key in base.Keys + patch.Keys ::
      if key !in patch then base[key]
      else if patch[key].Obj? && key in base && base[key].Obj? then Obj(DeepMerge(base[key].fields, patch[key].fields))
      else patch[key]
  }

  /** The value a merge leaves under a key of the patch. */
  function Entry(base: map<Key, Json>, key: Key, value: Json): Json {
    if value.Obj? && Get(base, key).Obj? then Obj(DeepMerge(base[key].fields, value.fields)) else value
  }

  lemma MergeStep(base: map<Key, Json>, patch: map<Key, Json>, todo: set<Key>, key: Key)
    requires key in todo && key in patch
    ensures DeepMerge(base, patch - (todo - {key})) == DeepMerge(base, patch - todo)[key := Entry(base, key, patch[key])]
    ensures Get(DeepMerge(base, patch - todo), key) == Get(base, key)
  {
    var less, more := DeepMerge(base, patch - todo), DeepMerge(base, patch - (todo - {key}));
    assert more.Keys == less.Keys + {key};
  }

  method DeepMergeDict(base: map<Key, Json>, patch: map<Key, Json>) returns (merged: map<Key, Json>)
    ensures merged == DeepMerge(base, patch)
    decreases Obj(patch)
  {
    merged := base;
    var todo := patch.Keys;
    assert DeepMerge(base, patch - todo) == base;
    while todo != {}
      invariant todo <= patch.Keys && merged == DeepMerge(base, patch - todo)
      decreases |todo|
    {
      var key :| key in todo;
      var value := patch[key];
      MergeStep(base, patch, todo, key);
      if value.Obj? && Get(merged, key).Obj? {
        var inner := DeepMergeDict(Get(merged, key).fields, value.fields);
        merged := merged[key := Obj(inner)];
      } else {
        merged := merged[key := value];
      }
      todo := todo - {key};
    }
    assert patch - {} == patch;
  }

  lemma {:induction false} MergeSelf(p: map<Key, Json>)
    ensures DeepMerge(p, p) == p
    decreases Obj(p)
  {
    forall key | key in p ensures DeepMerge(p, p)[key] == p[key] {
      if p[key].Obj? {
        MergeSelf(p[key].fields);
      }
    }
  }

  /** Applying a patch a second time changes nothing. */
  lemma {:induction false} MergeTwice(b: map<Key, Json>, p: map<Key, Json>)
    ensures DeepMerge(DeepMerge(b, p), p) == DeepMerge(b, p)
    decreases Obj(p)
  {
    var once := DeepMerge(b, p);
    forall key | key in once ensures DeepMerge(once, p)[key] == once[key] {
      if key in p && p[key].Obj? {
        if key in b && b[key].Obj? {
          MergeTwice(b[key].fields, p[key].fields);
        } else {
          MergeSelf(p[key].fields);
        }
      }
    }
    assert DeepMerge(once, p).Keys == once.Keys;
  }

  /** Where a path of keys leads: to a value, off the end of a dictionary, or into something that is not one. */
  datatype Walk = Hit(value: Json) | Missing | Blocked

  function Follow(v: Json, path: seq<Key>): Walk {
    if path == [] then Hit(v)
    else if !v.Obj? then Blocked
    else if path[0] in v.fields then Follow(v.fields[path[0]], path[1..])
    else Missing
  }

  /** What reading `path` in the merged dictionary must give, told from the two dictionaries read apart. */
  ghost predicate ReadsAs(merged: Walk, base: Walk, patch: Walk) {
    match patch
    case Hit(Obj(own)) =>
      merged == Hit(Obj(if base.Hit? && base.value.Obj? then DeepMerge(base.value.fields, own) else own))
    case Hit(v) => merged == Hit(v)
    case Blocked => !merged.Hit?
    case Missing => if base.Hit? then merged == base else !merged.Hit?
  }

  /** Scalars of the patch win, dictionaries merge, and what the patch does not reach is as it was. */
  lemma {:induction false} MergeReads(b: map<Key, Json>, p: map<Key, Json>, path: seq<Key>)
    ensures ReadsAs(Follow(Obj(DeepMerge(b, p)), path), Follow(Obj(b), path), Follow(Obj(p), path))
    decreases |path|
  {
    if path != [] {
      var key, rest := path[0], path[1..];
      if key in p && p[key].Obj? && key in b && b[key].Obj? {
        MergeReads(b[key].fields, p[key].fields, rest);
      }
    }
  }
}
