/** The content-addressed store, and the journal and receipt records kept in it. */
module Journal {
  import opened Options

  // ----- texts and references -----

  /** Stored bytes: JSON printed canonically, other JSON text, or text that is no JSON. */
  datatype Bytes = Printed(json: Json) | Loose(json: Json, layout: nat) | Plain(text: string)

  /** A reference is an injective hash of the bytes. */
  datatype Ref = Sha(bytes: Bytes)

  datatype Str = Text(text: string) | RefText(ref: Ref)

  datatype Json = JString(s: Str) | JNumber(n: int) | JList(items: seq<Json>) | JObject(fields: seq<Field>)

  datatype Name =
    | ACTOR_ID | KIND | ARGUMENTS_DIGEST | ORIGINAL_TOOL_CALL_ID | OUTPUT_REF | PRINCIPAL | STATUS | TOOL_NAME | VERSION | Foreign(text: string)

  datatype Field = Field(name: Name, value: Json)

  function Parse(b: Bytes): Option<Json> {
    match b
    case Printed(json) => Some(json)
    case Loose(json, _) => Some(json)
    case Plain(_) => None
  }

  // ----- the store -----

  datatype Blob = Blob(bytes: Bytes, mime: string, creator: string)

  type Store = map<Ref, Blob>

  /** The first writer of some bytes decides their metadata. */
  function Put(store: Store, b: Bytes, mime: string, creator: string): Store {
    if Sha(b) in store then store else store[Sha(b) := Blob(b, mime, creator)]
  }

  predicate Addressed(store: Store) {
    forall r :: r in store ==> Sha(store[r].bytes) == r
  }

  /** `later` holds everything `store` holds. */
  predicate Extends(later: Store, store: Store) {
    forall r :: r in store ==> r in later && later[r] == store[r]
  }

  lemma {:induction false} PutExtends(store: Store, b: Bytes, mime: string, creator: string)
    requires Addressed(store)
    ensures Addressed(Put(store, b, mime, creator)) && Extends(Put(store, b, mime, creator), store)
    ensures Sha(b) in Put(store, b, mime, creator)
  {
  }

  // ----- records -----

  const INTENT_KIND := "cantilune.external-tool-invocation-intent"
  const INTENT_MIME := "application/vnd.cantilune.tool-invocation-intent+json"
  const INTENT_CREATOR := "cantilune:tool-invocation-intent:v1"
  const RECEIPT_KIND := "cantilune.external-tool-observation-recovery"
  const RECEIPT_MIME := "application/vnd.cantilune.tool-observation-recovery+json"
  const RECEIPT_CREATOR := "cantilune:tool-observation-recovery:v1"

  datatype Principal = Principal(actorId: Str, kind: Str)

  datatype Status = DispatchedStatus | CompletedStatus

  datatype InvocationKey = InvocationKey(principal: Principal, tool: Str, digest: Str, callId: Str)

  datatype Intent = Intent(key: InvocationKey, status: Status, output: Option<Str>)

  datatype Receipt = Receipt(key: InvocationKey, output: Str)

  function Word(text: string): Json {
    JString(Text(text))
  }

  function StatusText(status: Status): string {
    match status
    case DispatchedStatus => "dispatched"
    case CompletedStatus => "completed"
  }

  function PrincipalJson(p: Principal): Json {
    JObject([Field(ACTOR_ID, JString(p.actorId)), Field(KIND, JString(p.kind))])
  }

  function KeyHead(kind: string, key: InvocationKey): seq<Field> {
    [Field(ARGUMENTS_DIGEST, JString(key.digest)), Field(KIND, Word(kind)), Field(ORIGINAL_TOOL_CALL_ID, JString(key.callId))]
  }

  function KeyTail(key: InvocationKey, status: string): seq<Field> {
    [Field(PRINCIPAL, PrincipalJson(key.principal)), Field(STATUS, Word(status)), Field(TOOL_NAME, JString(key.tool)), Field(VERSION, JNumber(1))]
  }

  function IntentFields(i: Intent): seq<Field> {
    KeyHead(INTENT_KIND, i.key) + (if i.output.Some? then [Field(OUTPUT_REF, JString(i.output.value))] else []) + KeyTail(i.key, StatusText(i.status))
  }

  /** The record in its fixed field order. */
  function IntentJson(i: Intent): Json {
    JObject(IntentFields(i))
  }

  function ReceiptHead(kind: string, key: InvocationKey): seq<Field> {
    [Field(KIND, Word(kind)), Field(VERSION, JNumber(1)), Field(PRINCIPAL, PrincipalJson(key.principal)), Field(TOOL_NAME, JString(key.tool))]
  }

  function ReceiptTail(key: InvocationKey, output: Str): seq<Field> {
    [Field(ORIGINAL_TOOL_CALL_ID, JString(key.callId)), Field(ARGUMENTS_DIGEST, JString(key.digest)), Field(OUTPUT_REF, JString(output))]
  }

  function ReceiptJson(r: Receipt): Json {
    JObject(ReceiptHead(RECEIPT_KIND, r.key) + ReceiptTail(r.key, r.output))
  }

  function IntentText(i: Intent): Bytes {
    Printed(IntentJson(i))
  }

  function ReceiptText(r: Receipt): Bytes {
    Printed(ReceiptJson(r))
  }

  // ----- strict readers -----

  function Lookup(fields: seq<Field>, name: Name): Option<Json> {
    if fields == [] then None else if fields[0].name == name then Some(fields[0].value) else Lookup(fields[1..], name)
  }

  /** The object has exactly the expected keys. */
  predicate ExactKeys(fields: seq<Field>, expected: seq<Name>) {
    |fields| == |expected| && forall i :: 0 <= i < |expected| ==> Lookup(fields, expected[i]).Some?
  }

  function StringAt(fields: seq<Field>, name: Name): Option<Str> {
    var v := Lookup(fields, name);
    if v.Some? && v.value.JString? then Some(v.value.s) else None
  }

  function StrictPrincipal(j: Json): Option<Principal> {
    if !j.JObject? || !ExactKeys(j.fields, [ACTOR_ID, KIND]) then None
    else
      var actorId, kind := StringAt(j.fields, ACTOR_ID), StringAt(j.fields, KIND);
      if actorId.None? || kind.None? then None else Some(Principal(actorId.value, kind.value))
  }

  /** The part intents and receipts share. */
  function StrictKey(fields: seq<Field>, kind: string): Option<InvocationKey> {
    var principal := Lookup(fields, PRINCIPAL);
    if principal.None? || StrictPrincipal(principal.value).None? then None
    else if Lookup(fields, KIND) != Some(Word(kind)) || Lookup(fields, VERSION) != Some(JNumber(1)) then None
    else
      var tool, callId, digest := StringAt(fields, TOOL_NAME), StringAt(fields, ORIGINAL_TOOL_CALL_ID), StringAt(fields, ARGUMENTS_DIGEST);
      if tool.None? || callId.None? || digest.None? then None
      else Some(InvocationKey(StrictPrincipal(principal.value).value, tool.value, digest.value, callId.value))
  }

  const INTENT_FIELDS := [ARGUMENTS_DIGEST, KIND, ORIGINAL_TOOL_CALL_ID, PRINCIPAL, STATUS, TOOL_NAME, VERSION]
  const RECEIPT_FIELDS := [ARGUMENTS_DIGEST, KIND, ORIGINAL_TOOL_CALL_ID, OUTPUT_REF, PRINCIPAL, TOOL_NAME, VERSION]

  function StrictIntent(j: Json): Option<Intent> {
    if !j.JObject? then None
    else
      var hasOutput := Lookup(j.fields, OUTPUT_REF).Some?;
      if !ExactKeys(j.fields, if hasOutput then INTENT_FIELDS + [OUTPUT_REF] else INTENT_FIELDS) then None
      else
        var key, status, output := StrictKey(j.fields, INTENT_KIND), Lookup(j.fields, STATUS), StringAt(j.fields, OUTPUT_REF);
        if key.None? || (status != Some(Word("dispatched")) && status != Some(Word("completed"))) || (hasOutput && output.None?) then None
        else Some(Intent(key.value, if status == Some(Word("dispatched")) then DispatchedStatus else CompletedStatus, output))
  }

  function StrictReceipt(j: Json): Option<Receipt> {
    if !j.JObject? || !ExactKeys(j.fields, RECEIPT_FIELDS) then None
    else
      var key, output := StrictKey(j.fields, RECEIPT_KIND), StringAt(j.fields, OUTPUT_REF);
      if key.None? || output.None? then None else Some(Receipt(key.value, output.value))
  }

  // ----- reading back what was printed -----

  ghost predicate DistinctNames(fields: seq<Field>) {
    forall i, k :: 0 <= i < k < |fields| ==> fields[i].name != fields[k].name
  }

  lemma {:induction false} LookupAt(fields: seq<Field>, k: nat)
    requires DistinctNames(fields) && k < |fields|
    ensures Lookup(fields, fields[k].name) == Some(fields[k].value)
  {
    if k > 0 {
      assert fields[1..][k - 1] == fields[k];
      LookupAt(fields[1..], k - 1);
    }
  }

  /** Equal up to the order of the fields of objects. */
  predicate Same(a: Json, b: Json)
    decreases b
  {
    if a.JObject? && b.JObject? then
      |a.fields| == |b.fields|
      && forall k :: 0 <= k < |b.fields| ==> Lookup(a.fields, b.fields[k].name).Some? && Same(Lookup(a.fields, b.fields[k].name).value, b.fields[k].value)
    else a == b
  }

  predicate HasField(fields: seq<Field>, f: Field) {
    Lookup(fields, f.name).Some? && Same(Lookup(fields, f.name).value, f.value)
  }

  predicate HasFields(fields: seq<Field>, b: seq<Field>) {
    forall k :: 0 <= k < |b| ==> HasField(fields, b[k])
  }

  lemma {:induction false} SameParts(fields: seq<Field>, a: seq<Field>, b: seq<Field>)
    ensures Same(JObject(fields), JObject(a + b)) <==> |fields| == |a| + |b| && HasFields(fields, a) && HasFields(fields, b)
  {
    var all := a + b;
    assert forall k :: 0 <= k < |a| ==> all[k] == a[k];
    assert forall k :: 0 <= k < |b| ==> all[|a| + k] == b[k];
    assert Same(JObject(fields), JObject(all)) <==> |fields| == |all| && HasFields(fields, all);
  }

  lemma {:induction false} ThreeFields(fields: seq<Field>, f: Field, g: Field, h: Field)
    ensures HasFields(fields, [f, g, h]) <==> HasField(fields, f) && HasField(fields, g) && HasField(fields, h)
  {
    var b := [f, g, h];
    assert b[0] == f && b[1] == g && b[2] == h;
  }

  lemma {:induction false} FourFields(fields: seq<Field>, f: Field, g: Field, h: Field, i: Field)
    ensures HasFields(fields, [f, g, h, i]) <==> HasField(fields, f) && HasField(fields, g) && HasField(fields, h) && HasField(fields, i)
  {
    var b := [f, g, h, i];
    assert b[0] == f && b[1] == g && b[2] == h && b[3] == i;
  }

  lemma {:induction false} PrincipalIff(j: Json, p: Principal)
    ensures StrictPrincipal(j) == Some(p) <==> Same(j, PrincipalJson(p))
  {
    var b := PrincipalJson(p).fields;
    assert b[0].name == ACTOR_ID && b[1].name == KIND && |b| == 2;
    assert [ACTOR_ID, KIND][0] == ACTOR_ID && [ACTOR_ID, KIND][1] == KIND;
  }

  /** The fields that carry an invocation key. */
  predicate KeyFields(fields: seq<Field>, kind: string, key: InvocationKey) {
    && Lookup(fields, PRINCIPAL).Some? && Same(Lookup(fields, PRINCIPAL).value, PrincipalJson(key.principal))
    && Lookup(fields, KIND) == Some(Word(kind)) && Lookup(fields, VERSION) == Some(JNumber(1))
    && Lookup(fields, TOOL_NAME) == Some(JString(key.tool)) && Lookup(fields, ORIGINAL_TOOL_CALL_ID) == Some(JString(key.callId))
    && Lookup(fields, ARGUMENTS_DIGEST) == Some(JString(key.digest))
  }

  lemma {:induction false} KeyIff(fields: seq<Field>, kind: string, key: InvocationKey)
    ensures StrictKey(fields, kind) == Some(key) <==> KeyFields(fields, kind, key)
  {
    if Lookup(fields, PRINCIPAL).Some? { PrincipalIff(Lookup(fields, PRINCIPAL).value, key.principal); }
  }

  /** What the fields a record is made of say about an object that holds them. */
  lemma {:induction false} HeadIs(fields: seq<Field>, kind: string, key: InvocationKey)
    ensures HasFields(fields, KeyHead(kind, key)) <==>
      && Lookup(fields, ARGUMENTS_DIGEST) == Some(JString(key.digest)) && Lookup(fields, KIND) == Some(Word(kind))
      && Lookup(fields, ORIGINAL_TOOL_CALL_ID) == Some(JString(key.callId))
  {
    var b := KeyHead(kind, key);
    ThreeFields(fields, b[0], b[1], b[2]);
  }

  lemma {:induction false} TailIs(fields: seq<Field>, key: InvocationKey, status: string)
    ensures HasFields(fields, KeyTail(key, status)) <==>
      && HasField(fields, Field(PRINCIPAL, PrincipalJson(key.principal))) && Lookup(fields, STATUS) == Some(Word(status))
      && Lookup(fields, TOOL_NAME) == Some(JString(key.tool)) && Lookup(fields, VERSION) == Some(JNumber(1))
  {
    var b := KeyTail(key, status);
    FourFields(fields, b[0], b[1], b[2], b[3]);
  }

  lemma {:induction false} ReceiptHeadIs(fields: seq<Field>, kind: string, key: InvocationKey)
    ensures HasFields(fields, ReceiptHead(kind, key)) <==>
      && Lookup(fields, KIND) == Some(Word(kind)) && Lookup(fields, VERSION) == Some(JNumber(1))
      && HasField(fields, Field(PRINCIPAL, PrincipalJson(key.principal))) && Lookup(fields, TOOL_NAME) == Some(JString(key.tool))
  {
    var b := ReceiptHead(kind, key);
    FourFields(fields, b[0], b[1], b[2], b[3]);
  }

  lemma {:induction false} ReceiptTailIs(fields: seq<Field>, key: InvocationKey, output: Str)
    ensures HasFields(fields, ReceiptTail(key, output)) <==>
      && Lookup(fields, ORIGINAL_TOOL_CALL_ID) == Some(JString(key.callId)) && Lookup(fields, ARGUMENTS_DIGEST) == Some(JString(key.digest))
      && Lookup(fields, OUTPUT_REF) == Some(JString(output))
  {
    var b := ReceiptTail(key, output);
    ThreeFields(fields, b[0], b[1], b[2]);
  }

  lemma {:induction false} ReceiptFields(fields: seq<Field>, kind: string, key: InvocationKey, output: Str)
    ensures Same(JObject(fields), JObject(ReceiptHead(kind, key) + ReceiptTail(key, output)))
       <==> |fields| == 7 && KeyFields(fields, kind, key) && Lookup(fields, OUTPUT_REF) == Some(JString(output))
  {
    SameParts(fields, ReceiptHead(kind, key), ReceiptTail(key, output));
    ReceiptHeadIs(fields, kind, key);
    ReceiptTailIs(fields, key, output);
  }

  /** A receipt is read back exactly from its own record, in whatever order the fields come. */
  lemma {:induction false} ReceiptIff(j: Json, r: Receipt)
    ensures StrictReceipt(j) == Some(r) <==> Same(j, ReceiptJson(r))
  {
    if j.JObject? {
      KeyIff(j.fields, RECEIPT_KIND, r.key);
      ReceiptFields(j.fields, RECEIPT_KIND, r.key, r.output);
      var e := RECEIPT_FIELDS;
      assert e[0] == ARGUMENTS_DIGEST && e[1] == KIND && e[2] == ORIGINAL_TOOL_CALL_ID && e[3] == OUTPUT_REF;
      assert e[4] == PRINCIPAL && e[5] == TOOL_NAME && e[6] == VERSION;
    }
  }

  lemma {:induction false} BareFields(fields: seq<Field>, kind: string, key: InvocationKey, status: string)
    ensures Same(JObject(fields), JObject(KeyHead(kind, key) + KeyTail(key, status)))
       <==> |fields| == 7 && KeyFields(fields, kind, key) && Lookup(fields, STATUS) == Some(Word(status))
  {
    SameParts(fields, KeyHead(kind, key), KeyTail(key, status));
    HeadIs(fields, kind, key);
    TailIs(fields, key, status);
  }

  lemma {:induction false} OneField(fields: seq<Field>, f: Field)
    ensures HasFields(fields, [f]) <==> HasField(fields, f)
  {
    assert [f][0] == f;
  }

  lemma {:induction false} OutputFields(fields: seq<Field>, kind: string, key: InvocationKey, status: string, output: Str)
    ensures Same(JObject(fields), JObject(KeyHead(kind, key) + [Field(OUTPUT_REF, JString(output))] + KeyTail(key, status)))
       <==> |fields| == 8 && KeyFields(fields, kind, key) && Lookup(fields, STATUS) == Some(Word(status))
            && Lookup(fields, OUTPUT_REF) == Some(JString(output))
  {
    var middle := [Field(OUTPUT_REF, JString(output))];
    SameParts(fields, KeyHead(kind, key) + middle, KeyTail(key, status));
    PartsOf(fields, KeyHead(kind, key), middle);
    OneField(fields, middle[0]);
    HeadIs(fields, kind, key);
    TailIs(fields, key, status);
  }

  lemma {:induction false} PartsOf(fields: seq<Field>, a: seq<Field>, b: seq<Field>)
    ensures HasFields(fields, a + b) <==> HasFields(fields, a) && HasFields(fields, b)
  {
    var all := a + b;
    assert forall k :: 0 <= k < |a| ==> all[k] == a[k];
    assert forall k :: 0 <= k < |b| ==> all[|a| + k] == b[k];
  }

  lemma {:induction false} IntentFieldsAre(fields: seq<Field>, i: Intent)
    ensures Same(JObject(fields), IntentJson(i))
       <==> |fields| == (if i.output.Some? then 8 else 7) && KeyFields(fields, INTENT_KIND, i.key)
            && Lookup(fields, STATUS) == Some(Word(StatusText(i.status)))
            && (i.output.Some? ==> Lookup(fields, OUTPUT_REF) == Some(JString(i.output.value)))
  {
    if i.output.Some? {
      OutputFields(fields, INTENT_KIND, i.key, StatusText(i.status), i.output.value);
    } else {
      assert KeyHead(INTENT_KIND, i.key) + [] == KeyHead(INTENT_KIND, i.key);
      BareFields(fields, INTENT_KIND, i.key, StatusText(i.status));
    }
  }

  /** The seven names every intent carries. */
  predicate IntentNames(fields: seq<Field>) {
    && Lookup(fields, ARGUMENTS_DIGEST).Some? && Lookup(fields, KIND).Some? && Lookup(fields, ORIGINAL_TOOL_CALL_ID).Some?
    && Lookup(fields, PRINCIPAL).Some? && Lookup(fields, STATUS).Some? && Lookup(fields, TOOL_NAME).Some? && Lookup(fields, VERSION).Some?
  }

  lemma {:induction false} ExactIntent(fields: seq<Field>)
    ensures ExactKeys(fields, INTENT_FIELDS) <==> |fields| == 7 && IntentNames(fields)
    ensures ExactKeys(fields, INTENT_FIELDS + [OUTPUT_REF]) <==> |fields| == 8 && IntentNames(fields) && Lookup(fields, OUTPUT_REF).Some?
    ensures |fields| == 7 && IntentNames(fields) ==> Lookup(fields, OUTPUT_REF).None?
  {
    var e := INTENT_FIELDS;
    assert e[0] == ARGUMENTS_DIGEST && e[1] == KIND && e[2] == ORIGINAL_TOOL_CALL_ID && e[3] == PRINCIPAL;
    assert e[4] == STATUS && e[5] == TOOL_NAME && e[6] == VERSION && (e + [OUTPUT_REF])[7] == OUTPUT_REF;
    assert forall k :: 0 <= k < 7 ==> (e + [OUTPUT_REF])[k] == e[k];
    if ExactKeys(fields, e) { NoRoom(fields); }
  }

  /** A record without an output has no room for an output field. */
  lemma {:induction false} NoRoom(fields: seq<Field>)
    requires |fields| == 7 && ExactKeys(fields, INTENT_FIELDS)
    ensures Lookup(fields, OUTPUT_REF).None?
  {
    forall n | n in SevenNames() ensures Lookup(fields, n).Some? {
      ExpectedName(fields, n);
    }
    SevenCount();
    NoOther(fields, SevenNames(), OUTPUT_REF);
  }

  /** A record with no more fields than expected names has no other name. */
  lemma {:induction false} NoOther(fields: seq<Field>, expected: set<Name>, other: Name)
    requires |fields| <= |expected| && other !in expected && forall n :: n in expected ==> Lookup(fields, n).Some?
    ensures Lookup(fields, other).None?
  {
    var names := set f <- fields :: f.name;
    forall n | n in expected ensures n in names {
      LookupName(fields, n);
    }
    NamesBound(fields);
    SameSize(expected, names);
    if Lookup(fields, other).Some? { LookupName(fields, other); }
  }

  function SevenNames(): set<Name> {
    {ARGUMENTS_DIGEST, KIND, ORIGINAL_TOOL_CALL_ID, PRINCIPAL, STATUS, TOOL_NAME, VERSION}
  }

  lemma {:induction false} SevenCount()
    ensures |SevenNames()| == 7
  {
    assert SevenNames() == {ARGUMENTS_DIGEST, KIND, ORIGINAL_TOOL_CALL_ID} + {PRINCIPAL, STATUS, TOOL_NAME, VERSION};
  }

  lemma {:induction false} ExpectedName(fields: seq<Field>, n: Name)
    requires ExactKeys(fields, INTENT_FIELDS) && n in SevenNames()
    ensures Lookup(fields, n).Some?
  {
    var e := INTENT_FIELDS;
    assert e[0] == ARGUMENTS_DIGEST && e[1] == KIND && e[2] == ORIGINAL_TOOL_CALL_ID && e[3] == PRINCIPAL;
    assert e[4] == STATUS && e[5] == TOOL_NAME && e[6] == VERSION;
  }

  lemma {:induction false} SameSize<T>(a: set<T>, b: set<T>)
    requires a <= b && |b| <= |a|
    ensures a == b
  {
    assert b == a + (b - a);
  }

  lemma {:induction false} NamesBound(fields: seq<Field>)
    ensures |set f <- fields :: f.name| <= |fields|
  {
    if fields != [] {
      NamesBound(fields[1..]);
      var rest := set f <- fields[1..] :: f.name;
      assert (set f <- fields :: f.name) == {fields[0].name} + rest by { assert fields == [fields[0]] + fields[1..]; }
    }
  }

  lemma {:induction false} LookupName(fields: seq<Field>, name: Name)
    requires Lookup(fields, name).Some?
    ensures exists f :: f in fields && f.name == name
  {
    if fields[0].name != name { LookupName(fields[1..], name); }
  }

  /** An intent is read back exactly from its own record, in whatever order the fields come. */
  lemma {:induction false} IntentIff(j: Json, i: Intent)
    ensures StrictIntent(j) == Some(i) <==> Same(j, IntentJson(i))
  {
    if j.JObject? {
      KeyIff(j.fields, INTENT_KIND, i.key);
      IntentFieldsAre(j.fields, i);
      ExactIntent(j.fields);
    }
  }

  // ----- round trips -----

  lemma {:induction false} SameSelf(fields: seq<Field>)
    requires DistinctNames(fields) && forall k :: 0 <= k < |fields| ==> Same(fields[k].value, fields[k].value)
    ensures Same(JObject(fields), JObject(fields))
  {
    forall k | 0 <= k < |fields| ensures Lookup(fields, fields[k].name) == Some(fields[k].value) {
      LookupAt(fields, k);
    }
  }

  lemma {:induction false} SamePrincipal(p: Principal)
    ensures Same(PrincipalJson(p), PrincipalJson(p))
  {
    SameSelf(PrincipalJson(p).fields);
  }

  /** What was printed for an intent reads back as that intent. */
  lemma {:induction false} IntentRoundTrip(i: Intent)
    ensures Parse(IntentText(i)).Some? && StrictIntent(Parse(IntentText(i)).value) == Some(i)
  {
    IntentSame(i);
    IntentIff(IntentJson(i), i);
  }

  lemma {:induction false} IntentSame(i: Intent)
    ensures Same(IntentJson(i), IntentJson(i))
  {
    SamePrincipal(i.key.principal);
    SameSelf(IntentJson(i).fields);
  }

  lemma {:induction false} ReceiptRoundTrip(r: Receipt)
    ensures Parse(ReceiptText(r)).Some? && StrictReceipt(Parse(ReceiptText(r)).value) == Some(r)
  {
    SamePrincipal(r.key.principal);
    SameSelf(ReceiptJson(r).fields);
    ReceiptIff(ReceiptJson(r), r);
  }

  // ----- the journal -----

  /** The blob at a reference, if it is a journal record written by the journal. */
  function ReadIntent(store: Store, ref: Ref): Option<Intent> {
    if ref !in store || store[ref].mime != INTENT_MIME || store[ref].creator != INTENT_CREATOR || Sha(store[ref].bytes) != ref then None
    else if Parse(store[ref].bytes).None? then None
    else StrictIntent(Parse(store[ref].bytes).value)
  }

  function IntentRef(key: InvocationKey, status: Status, output: Option<Str>): Ref {
    Sha(IntentText(Intent(key, status, output)))
  }

  /** The reference under which the dispatch of a key is found again. */
  function DispatchedRef(key: InvocationKey): Ref {
    IntentRef(key, DispatchedStatus, None)
  }

  /** Intent and receipt texts are stored only by their own writers. */
  ghost predicate OwnWriters(store: Store) {
    forall r :: r in store ==> Owned(store[r])
  }

  ghost predicate Owned(b: Blob) {
    && (forall i :: b.bytes == IntentText(i) ==> b.mime == INTENT_MIME && b.creator == INTENT_CREATOR)
    && (forall r :: b.bytes == ReceiptText(r) ==> b.mime == RECEIPT_MIME && b.creator == RECEIPT_CREATOR)
  }

  /** A stored intent is found, exactly. */
  lemma {:induction false} ReadStored(store: Store, i: Intent)
    requires Addressed(store) && OwnWriters(store)
    ensures ReadIntent(store, Sha(IntentText(i))) == if Sha(IntentText(i)) in store then Some(i) else None
  {
    IntentRoundTrip(i);
    if Sha(IntentText(i)) in store { assert Owned(store[Sha(IntentText(i))]); }
  }

  /** No text is both an intent and a receipt. */
  lemma {:induction false} KindsDiffer(i: Intent, r: Receipt)
    ensures IntentText(i) != ReceiptText(r)
  {
    var a, b := IntentJson(i).fields, ReceiptJson(r).fields;
    assert a[0].name == ARGUMENTS_DIGEST && b[0].name == KIND;
  }

  lemma {:induction false} PutOwned(store: Store, b: Bytes, mime: string, creator: string)
    requires Addressed(store) && OwnWriters(store) && Owned(Blob(b, mime, creator))
    ensures OwnWriters(Put(store, b, mime, creator)) && Addressed(Put(store, b, mime, creator))
  {
  }

  lemma {:induction false} IntentOwned(i: Intent)
    ensures Owned(Blob(IntentText(i), INTENT_MIME, INTENT_CREATOR))
  {
    forall r ensures IntentText(i) != ReceiptText(r) {
      KindsDiffer(i, r);
    }
  }

  lemma {:induction false} ReceiptOwned(r: Receipt)
    ensures Owned(Blob(ReceiptText(r), RECEIPT_MIME, RECEIPT_CREATOR))
  {
    forall i ensures IntentText(i) != ReceiptText(r) {
      KindsDiffer(i, r);
    }
  }

  // ----- observation recoveries -----

  datatype ObservationRecovery = ObservationRecovery(tool: Str, callId: Str, digest: Str, output: Str, receipt: Str)

  function ReceiptOf(principal: Principal, r: ObservationRecovery): Receipt {
    Receipt(InvocationKey(principal, r.tool, r.digest, r.callId), r.output)
  }

  /** Whether a recovery authorizes observing a stored output again. */
  predicate ValidateRecovery(store: Store, principal: Principal, r: ObservationRecovery) {
    if r.tool == Text("") || r.callId == Text("") || !r.digest.RefText? || !r.output.RefText? || !r.receipt.RefText? then false
    else if r.receipt.ref !in store || r.output.ref !in store then false
    else
      var receipt, output := store[r.receipt.ref], store[r.output.ref];
      if receipt.mime != RECEIPT_MIME || receipt.creator != RECEIPT_CREATOR || Sha(receipt.bytes) != r.receipt.ref || Sha(output.bytes) != r.output.ref then false
      else if Parse(receipt.bytes).None? then false
      else
        var strict := StrictReceipt(Parse(receipt.bytes).value);
        if strict.None? || ReceiptText(strict.value) != receipt.bytes then false
        else
          && strict.value.key.principal == principal && strict.value.key.tool == r.tool && strict.value.key.callId == r.callId
          && strict.value.key.digest == r.digest && strict.value.output == r.output
  }

  /** A recovery is accepted exactly when it names the stored receipt of its own fields and a stored output. */
  lemma {:induction false} ValidatedWhen(store: Store, principal: Principal, r: ObservationRecovery)
    requires Addressed(store)
    ensures ValidateRecovery(store, principal, r) <==>
      && r.tool != Text("") && r.callId != Text("") && r.digest.RefText? && r.output.RefText? && r.output.ref in store
      && r.receipt == RefText(Sha(ReceiptText(ReceiptOf(principal, r)))) && r.receipt.ref in store
      && store[r.receipt.ref].mime == RECEIPT_MIME && store[r.receipt.ref].creator == RECEIPT_CREATOR
  {
    ReceiptRoundTrip(ReceiptOf(principal, r));
  }

  /** What is accepted once stays accepted as long as nothing is removed. */
  lemma {:induction false} ValidatedLater(store: Store, later: Store, principal: Principal, r: ObservationRecovery)
    requires Extends(later, store) && ValidateRecovery(store, principal, r)
    ensures ValidateRecovery(later, principal, r)
  {
  }
}
