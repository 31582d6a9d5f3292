/** The in-memory contract store of the web client's fetch mock, with optimistic locking by
    `rowVersion`.  Every request is one atomic step. */
module ContractStore {

  import opened Common

  type Id = string
  type Time = nat

  datatype Status = Draft | Active | Closed | Expired

  /** The commercial fields, which PATCH may edit. */
  datatype Terms = Terms(
    contractNumber: string,
    title: string,
    scopeDescription: Option<string>,
    validFrom: string,
    validTo: Option<string>,
    currencyCode: string,
    paymentTerms: Option<string>,
    paymentMethod: Option<string>)

  datatype Contract = Contract(
    id: Id,
    internalCode: string,
    clientId: string,
    unitId: string,
    terms: Terms,
    status: Status,
    activatedAt: Option<Time>,
    closedAt: Option<Time>,
    closureReason: Option<string>,
    rowVersion: int,
    updatedAt: Time)

  /** A field of a JSON body: missing, `null`, a string, or a value of another type. */
  datatype Field = Absent | Null | Text(text: string) | Other

  datatype CreateBody = CreateBody(
    clientId: Option<string>, unitId: Option<string>, contractNumber: Option<string>, title: Option<string>,
    validFrom: Option<string>, scopeDescription: Option<string>, validTo: Option<string>,
    currencyCode: Option<string>, paymentTerms: Option<string>, paymentMethod: Option<string>)

  datatype PatchBody = PatchBody(
    contractNumber: Field, title: Field, scopeDescription: Field, validFrom: Field, validTo: Field,
    currencyCode: Field, paymentTerms: Field, paymentMethod: Field)

  datatype Request =
    | Create(body: CreateBody, newId: Id, newCode: string, now: Time)
    | Read(id: Id)
    | Patch(id: Id, rowVersion: Option<int>, changes: PatchBody, now: Time)
    | Activate(id: Id, rowVersion: Option<int>, now: Time)
    | Close(id: Id, rowVersion: Option<int>, reason: Option<string>, now: Time)
    | Expire(id: Id, now: Time)
    | LinkDocument(id: Id, documentId: Option<string>, linkPurpose: Option<string>)
    | Stray(id: Id)        // a method that the contract's path does not serve
    | InjectConflict

  datatype Error =
    | CommercialDenied | ValidationFailed | ContractDuplicate | ContractNotFound | VersionConflict | InvalidState

  datatype Response = Accepted(contract: Contract) | Shown(contract: Contract) | Refused(error: Error) | Noted

  datatype State = State(store: seq<Contract>, conflictPending: bool, createAllowed: bool)

  const PROBE_CONTRACT_ID: Id := "00000000-0000-4000-8000-000000000005"

  // ----- Specification --------------------------------------------------------------------------

  /** JavaScript's truth of an optional string. */
  predicate Truthy(s: Option<string>) {
    s.Some? && s.value != ""
  }

  function OrElse<T>(o: Option<T>, default: T): T {
    if o.Some? then o.value else default
  }

  /** A required string is replaced by a non-empty string only. */
  function Edited(f: Field, current: string): string {
    if f.Text? && f.text != "" then f.text else current
  }

  /** An optional string can also be cleared by `null`. */
  function EditedOrCleared(f: Field, current: Option<string>): Option<string> {
    if f.Null? then None else if f.Text? && f.text != "" then Some(f.text) else current
  }

  function EditedTerms(t: Terms, b: PatchBody): Terms {
    Terms(Edited(b.contractNumber, t.contractNumber), Edited(b.title, t.title),
          EditedOrCleared(b.scopeDescription, t.scopeDescription), Edited(b.validFrom, t.validFrom),
          EditedOrCleared(b.validTo, t.validTo), Edited(b.currencyCode, t.currencyCode),
          EditedOrCleared(b.paymentTerms, t.paymentTerms), EditedOrCleared(b.paymentMethod, t.paymentMethod))
  }

  /** The index of the first contract with that id, or the length. */
  function IndexOf(store: seq<Contract>, id: Id): (k: nat)
    ensures k <= |store| && (k < |store| ==> store[k].id == id)
    ensures forall i :: 0 <= i < k ==> store[i].id != id
  {
    if store == [] || store[0].id == id then 0 else 1 + IndexOf(store[1..], id)
  }

  predicate NumberTaken(store: seq<Contract>, number: string) {
    exists i :: 0 <= i < |store| && store[i].terms.contractNumber == number
  }

  predicate Incomplete(b: CreateBody) {
    !Truthy(b.clientId) || !Truthy(b.unitId) || !Truthy(b.contractNumber) || !Truthy(b.title) || !Truthy(b.validFrom)
  }

  /** A new draft.  A missing end date falls back to the store's default. */
  function NewContract(b: CreateBody, id: Id, code: string): Contract
    requires !Incomplete(b)
  {
    Contract(id, code, b.clientId.value, b.unitId.value,
             Terms(b.contractNumber.value, b.title.value, b.scopeDescription, b.validFrom.value,
                   Some(OrElse(b.validTo, "2027-12-31")), OrElse(b.currencyCode, "BRL"), b.paymentTerms,
                   b.paymentMethod),
             Draft, None, None, None, 1, 0)
  }

  /** What a command does to the contract it addresses. */
  function Command(c: Contract, r: Request): Response
    requires !r.Create? && !r.InjectConflict?
  {
    match r
    case Read(_) => Shown(c)
    case Patch(_, v, changes, now) =>
      if c.status != Draft then Refused(InvalidState)
      else if v != Some(c.rowVersion) then Refused(VersionConflict)
      else Accepted(c.(terms := EditedTerms(c.terms, changes), rowVersion := c.rowVersion + 1, updatedAt := now))
    case Activate(_, v, now) =>
      if c.status != Draft then Refused(InvalidState)
      else if v != Some(c.rowVersion) then Refused(VersionConflict)
      else Accepted(c.(status := Active, activatedAt := Some(now), rowVersion := c.rowVersion + 1, updatedAt := now))
    case Close(_, v, reason, now) =>
      if c.status != Active then Refused(InvalidState)
      else if v != Some(c.rowVersion) then Refused(VersionConflict)
      else Accepted(c.(status := Closed, closedAt := Some(now), closureReason := reason,
                       rowVersion := c.rowVersion + 1, updatedAt := now))
    case Expire(_, now) =>
      if c.status != Active then Refused(InvalidState)
      else Accepted(c.(status := Expired, rowVersion := c.rowVersion + 1, updatedAt := now))
    case LinkDocument(_, documentId, linkPurpose) =>
      if !Truthy(documentId) || !Truthy(linkPurpose) then Refused(ValidationFailed) else Shown(c)
    case Stray(_) => Refused(ContractNotFound)
  }

  function Step(st: State, r: Request): (State, Response) {
    match r
    case InjectConflict => (st.(conflictPending := true), Noted)
    case Create(body, id, code, _) =>
      if !st.createAllowed then (st, Refused(CommercialDenied))
      else if Incomplete(body) then (st, Refused(ValidationFailed))
      else if NumberTaken(st.store, body.contractNumber.value) then (st, Refused(ContractDuplicate))
      else
        var c := NewContract(body, id, code);
        (st.(store := st.store + [c]), Accepted(c))
    case _ =>
      var k := IndexOf(st.store, r.id);
      if k == |st.store| || r.id == PROBE_CONTRACT_ID then (st, Refused(ContractNotFound))
      else if st.conflictPending && !r.Read? then (st.(conflictPending := false), Refused(VersionConflict))
      else
        var response := Command(st.store[k], r);
        (if response.Accepted? then st.(store := st.store[k := response.contract]) else st, response)
  }

  // ----- The store itself -----------------------------------------------------------------------

  class ContractsMock {
    var store: seq<Contract>
    var conflictPending: bool
    const createAllowed: bool

    ghost function Abstract(): State
      reads this
    {
      State(store, conflictPending, createAllowed)
    }

    constructor (createAllowed: bool, versionConflictOnNext: bool)
      ensures Abstract() == Initial(createAllowed, versionConflictOnNext)
    {
      this.createAllowed := createAllowed;
      conflictPending := versionConflictOnNext;
      store := [CONTRACT_A, CONTRACT_B, CONTRACT_C];
    }

    method Find(id: Id) returns (found: Option<nat>)
      ensures found == if IndexOf(store, id) == |store| then None else Some(IndexOf(store, id))
    {
      var i := 0;
      while i < |store|
        invariant i <= |store|
        invariant forall j :: 0 <= j < i ==> store[j].id != id
      {
        if store[i].id == id {
          return Some(i);
        }
        i := i + 1;
      }
      return None;
    }

    method Handle(r: Request) returns (response: Response)
      modifies this
      ensures (Abstract(), response) == Step(old(Abstract()), r)
    {
      if r.InjectConflict? {
        conflictPending := true;
        return Noted;
      }
      if r.Create? {
        response := HandleCreate(r);
        return;
      }
      var found := Find(r.id);
      if found.None? || r.id == PROBE_CONTRACT_ID {
        return Refused(ContractNotFound);
      }
      var existing := store[found.value];
      if r.Read? {
        return Shown(existing);
      }
      if conflictPending {
        conflictPending := false;
        return Refused(VersionConflict);
      }
      match r
      case Patch(_, rowVersion, changes, now) =>
        if existing.status != Draft {
          return Refused(InvalidState);
        }
        if rowVersion != Some(existing.rowVersion) {
          return Refused(VersionConflict);
        }
        var terms := EditedTerms(existing.terms, changes);
        response := Replace(found.value, existing.(terms := terms, rowVersion := existing.rowVersion + 1,
                                                   updatedAt := now));
      case Activate(_, rowVersion, now) =>
        if existing.status != Draft {
          return Refused(InvalidState);
        }
        if rowVersion != Some(existing.rowVersion) {
          return Refused(VersionConflict);
        }
        response := Replace(found.value, existing.(status := Active, activatedAt := Some(now),
                                                   rowVersion := existing.rowVersion + 1, updatedAt := now));
      case Close(_, rowVersion, reason, now) =>
        if existing.status != Active {
          return Refused(InvalidState);
        }
        if rowVersion != Some(existing.rowVersion) {
          return Refused(VersionConflict);
        }
        response := Replace(found.value, existing.(status := Closed, closedAt := Some(now), closureReason := reason,
                                                   rowVersion := existing.rowVersion + 1, updatedAt := now));
      case Expire(_, now) =>
        if existing.status != Active {
          return Refused(InvalidState);
        }
        response := Replace(found.value, existing.(status := Expired, rowVersion := existing.rowVersion + 1,
                                                   updatedAt := now));
      case LinkDocument(_, documentId, linkPurpose) =>
        if !Truthy(documentId) || !Truthy(linkPurpose) {
          return Refused(ValidationFailed);
        }
        return Shown(existing);
      case Stray(_) =>
        return Refused(ContractNotFound);
      case _ =>
        assert false;
    }

    /** The `splice` that puts the updated contract in the old one's place. */
    method Replace(k: nat, updated: Contract) returns (response: Response)
      requires k < |store|
      modifies this`store
      ensures store == old(store)[k := updated] && response == Accepted(updated)
    {
      store := store[k := updated];
      response := Accepted(updated);
    }

    method HandleCreate(r: Request) returns (response: Response)
      requires r.Create?
      modifies this
      ensures (Abstract(), response) == Step(old(Abstract()), r)
    {
      if !createAllowed {
        return Refused(CommercialDenied);
      }
      if Incomplete(r.body) {
        return Refused(ValidationFailed);
      }
      if NumberTaken(store, r.body.contractNumber.value) {
        return Refused(ContractDuplicate);
      }
      var created := NewContract(r.body, r.newId, r.newCode);
      store := store + [created];
      return Accepted(created);
    }
  }

  const CONTRACT_A: Contract :=
    Contract("aaaaaaaa-aaaa-4aaa-8aaa-00000000000a", "CTR-2026-A00001", "aaaaaaaa-aaaa-4aaa-8aaa-aaaaaaaaaaaa",
             "UNIT-A",
             Terms("CTR-ACT-001", "Contrato ativo A", None, "2026-01-01", Some("2027-12-31"), "BRL", None, None),
             Active, Some(0), None, None, 2, 0)

  const CONTRACT_B: Contract :=
    Contract("bbbbbbbb-bbbb-4bbb-8bbb-00000000000b", "CTR-2026-A00002", "aaaaaaaa-aaaa-4aaa-8aaa-aaaaaaaaaaaa",
             "UNIT-B",
             Terms("CTR-ACT-002", "Contrato ativo B", None, "2026-01-01", Some("2027-12-31"), "BRL", None, None),
             Active, Some(0), None, None, 3, 0)

  const CONTRACT_C: Contract :=
    Contract("cccccccc-cccc-4ccc-8ccc-00000000000c", "CTR-2026-A00003", "aaaaaaaa-aaaa-4aaa-8aaa-aaaaaaaaaaaa",
             "UNIT-A",
             Terms("CTR-DRAFT-001", "Rascunho de contrato", None, "2026-01-01", Some("2027-12-31"), "BRL", None, None),
             Draft, None, None, None, 1, 0)

  function Initial(createAllowed: bool, versionConflictOnNext: bool): State {
    State([CONTRACT_A, CONTRACT_B, CONTRACT_C], versionConflictOnNext, createAllowed)
  }

  predicate Holds(st: State, id: Id) {
    IndexOf(st.store, id) < |st.store|
  }

  function Get(st: State, id: Id): Contract
    requires Holds(st, id)
  {
    st.store[IndexOf(st.store, id)]
  }

  // ----- Invariants of every run ----------------------------------------------------------------

  ghost predicate DistinctIds(st: State) {
    forall i, j :: 0 <= i < j < |st.store| ==> st.store[i].id != st.store[j].id
  }

  /** Activation and closing dates are set exactly in the states that follow them. */
  ghost predicate Dated(c: Contract) {
    (c.activatedAt.Some? <==> c.status != Draft) && (c.closedAt.Some? <==> c.status == Closed)
  }

  ghost predicate Invariant(st: State) {
    DistinctIds(st) && forall i :: 0 <= i < |st.store| ==> Dated(st.store[i])
  }

  /** Identifiers drawn for new contracts are fresh. */
  ghost predicate Fresh(st: State, r: Request) {
    r.Create? ==> forall i :: 0 <= i < |st.store| ==> st.store[i].id != r.newId
  }

  lemma InitialInvariant(createAllowed: bool, versionConflictOnNext: bool)
    ensures Invariant(Initial(createAllowed, versionConflictOnNext))
  {
    assert CONTRACT_A.id[0] == 'a' && CONTRACT_B.id[0] == 'b' && CONTRACT_C.id[0] == 'c';
  }

  lemma CommandKeepsDated(c: Contract, r: Request)
    requires !r.Create? && !r.InjectConflict? && Dated(c) && Command(c, r).Accepted?
    ensures Dated(Command(c, r).contract) && Command(c, r).contract.id == c.id
  {
  }

  lemma CommandKeepsId(c: Contract, r: Request)
    requires !r.Create? && !r.InjectConflict? && Command(c, r).Accepted?
    ensures Command(c, r).contract.id == c.id && (r.Patch? || r.Activate? || r.Close? || r.Expire?)
  {
  }

  /** A step appends one new contract, replaces one by its updated form, or leaves the store. */
  lemma StoreShapes(st: State, r: Request)
    ensures var (st', response) := Step(st, r);
      if !response.Accepted? then st'.store == st.store
      else if r.Create? then
        !Incomplete(r.body) && st'.store == st.store + [NewContract(r.body, r.newId, r.newCode)]
      else
        && !r.InjectConflict? && Holds(st, r.id) && Command(Get(st, r.id), r) == response
        && st'.store == st.store[IndexOf(st.store, r.id) := response.contract]
  {
  }

  lemma StepKeepsInvariant(st: State, r: Request)
    requires Invariant(st) && Fresh(st, r)
    ensures Invariant(Step(st, r).0)
  {
    StoreShapes(st, r);
    var (st', response) := Step(st, r);
    if response.Accepted? && !r.Create? {
      CommandKeepsDated(Get(st, r.id), r);
    }
  }

  /** A refusal, a read or a document link leaves every contract as it was. */
  lemma OnlyAcceptedMutates(st: State, r: Request)
    ensures !Step(st, r).1.Accepted? ==> Step(st, r).0.store == st.store
  {
  }

  function StateAt(st: State, rs: seq<Request>, n: nat): State
    requires n <= |rs|
  {
    if n == 0 then st else Step(StateAt(st, rs, n - 1), rs[n - 1]).0
  }

  function ResponseAt(st: State, rs: seq<Request>, n: nat): Response
    requires n < |rs|
  {
    Step(StateAt(st, rs, n), rs[n]).1
  }

  /** The first `n` requests of a run from a valid state draw fresh identifiers. */
  ghost predicate ValidRun(st: State, rs: seq<Request>, n: nat)
    requires n <= |rs|
  {
    if n == 0 then Invariant(st) else ValidRun(st, rs, n - 1) && Fresh(StateAt(st, rs, n - 1), rs[n - 1])
  }

  lemma {:induction false} InvariantAlways(st: State, rs: seq<Request>, n: nat)
    requires n <= |rs| && ValidRun(st, rs, n)
    ensures Invariant(StateAt(st, rs, n))
  {
    if n > 0 {
      InvariantAlways(st, rs, n - 1);
      StepKeepsInvariant(StateAt(st, rs, n - 1), rs[n - 1]);
    }
  }

  // ----- One contract over a run ----------------------------------------------------------------

  predicate Mutates(r: Request, id: Id) {
    (r.Patch? || r.Activate? || r.Close? || r.Expire?) && r.id == id
  }

  predicate AllowedMove(from: Status, to: Status) {
    from == to || (from == Draft && to == Active) || (from == Active && to in {Closed, Expired})
  }

  lemma {:induction false} IndexOfPrefix(store: seq<Contract>, id: Id, more: seq<Contract>)
    ensures IndexOf(store, id) < |store| ==> IndexOf(store + more, id) == IndexOf(store, id)
  {
    if store != [] && store[0].id != id {
      assert (store + more)[1..] == store[1..] + more;
      IndexOfPrefix(store[1..], id, more);
    }
  }

  lemma IndexOfUnique(store: seq<Contract>, id: Id, k: nat)
    requires k < |store| && store[k].id == id && forall i :: 0 <= i < k ==> store[i].id != id
    ensures IndexOf(store, id) == k
  {
  }

  /** One step seen from one contract. */
  lemma ContractStep(st: State, r: Request, id: Id)
    requires Holds(st, id)
    ensures Holds(Step(st, r).0, id)
    ensures var (c, c') := (Get(st, id), Get(Step(st, r).0, id));
      if Mutates(r, id) && Step(st, r).1.Accepted? then Command(c, r) == Accepted(c') else c' == c
  {
    StoreShapes(st, r);
    var (st', response) := Step(st, r);
    if response.Accepted? {
      if r.Create? {
        IndexOfPrefix(st.store, id, [NewContract(r.body, r.newId, r.newCode)]);
      } else {
        CommandKeepsId(Get(st, r.id), r);
        IndexOfUnique(st'.store, id, IndexOf(st.store, id));
      }
    }
  }

  function Accepts(st: State, r: Request, id: Id): nat {
    if Mutates(r, id) && Step(st, r).1.Accepted? then 1 else 0
  }

  /** How often the run has accepted a mutation of `id` between two points. */
  function AcceptedCount(st: State, rs: seq<Request>, id: Id, m: nat, n: nat): nat
    requires m <= n <= |rs|
  {
    if m == n then 0
    else AcceptedCount(st, rs, id, m, n - 1) + Accepts(StateAt(st, rs, n - 1), rs[n - 1], id)
  }

  predicate Reaches(from: Status, to: Status, n: nat) {
    from == to || (n >= 1 && AllowedMove(from, to)) || (n >= 2 && from == Draft && to in {Closed, Expired})
  }

  /** What `n` accepted mutations may make of a contract: its version counts them; its status only
      moves forward, and out of DRAFT its commercial fields are frozen; a terminal contract is never
      changed again. */
  ghost predicate Ages(c: Contract, c': Contract, n: nat) {
    && c'.id == c.id
    && c'.rowVersion == c.rowVersion + n
    && Reaches(c.status, c'.status, n)
    && (c.status != Draft ==> c'.terms == c.terms && c'.activatedAt == c.activatedAt)
    && (c.status in {Closed, Expired} ==> c' == c)
  }

  lemma AgesOn(a: Contract, b: Contract, c: Contract, m: nat, n: nat)
    requires Ages(a, b, m) && Ages(b, c, n)
    ensures Ages(a, c, m + n)
  {
  }

  lemma CommandAges(c: Contract, r: Request)
    requires !r.Create? && !r.InjectConflict? && Command(c, r).Accepted?
    ensures Ages(c, Command(c, r).contract, 1)
  {
  }

  lemma StepAges(st: State, r: Request, id: Id)
    requires Holds(st, id)
    ensures Holds(Step(st, r).0, id) && Ages(Get(st, id), Get(Step(st, r).0, id), Accepts(st, r, id))
  {
    ContractStep(st, r, id);
    if Accepts(st, r, id) == 1 {
      CommandAges(Get(st, id), r);
    }
  }

  /** The life of a contract between any two points of a run: it stays in the store and ages by the
      number of mutations of it that the run has accepted. */
  lemma {:induction false} Lifecycle(st: State, rs: seq<Request>, id: Id, m: nat, n: nat)
    requires m <= n <= |rs| && Holds(StateAt(st, rs, m), id)
    ensures Holds(StateAt(st, rs, n), id)
    ensures Ages(Get(StateAt(st, rs, m), id), Get(StateAt(st, rs, n), id), AcceptedCount(st, rs, id, m, n))
    decreases n - m
  {
    if m < n {
      Lifecycle(st, rs, id, m, n - 1);
      var before, r := StateAt(st, rs, n - 1), rs[n - 1];
      StepAges(before, r, id);
      AgesOn(Get(StateAt(st, rs, m), id), Get(before, id), Get(Step(before, r).0, id),
             AcceptedCount(st, rs, id, m, n - 1), Accepts(before, r, id));
    }
  }

  lemma VersionNeverFalls(st: State, rs: seq<Request>, id: Id, m: nat, n: nat)
    requires m <= n <= |rs| && Holds(StateAt(st, rs, m), id)
    ensures Holds(StateAt(st, rs, n), id)
    ensures Get(StateAt(st, rs, m), id).rowVersion <= Get(StateAt(st, rs, n), id).rowVersion
  {
    Lifecycle(st, rs, id, m, n);
  }

  /** Ids stay distinct and dates follow the status in every state of every run. */
  lemma DatesFollowStatus(st: State, rs: seq<Request>, n: nat, id: Id)
    requires n <= |rs| && ValidRun(st, rs, n) && Holds(StateAt(st, rs, n), id)
    ensures DistinctIds(StateAt(st, rs, n)) && Dated(Get(StateAt(st, rs, n), id))
  {
    InvariantAlways(st, rs, n);
  }

  // ----- What a client reads back ---------------------------------------------------------------

  /** Every accepted request can be read back: the next read of that contract shows just what the
      response showed. */
  lemma AcceptedIsReadable(st: State, r: Request)
    requires Fresh(st, r) && Step(st, r).1.Accepted? && Step(st, r).1.contract.id != PROBE_CONTRACT_ID
    ensures var (st', response) := Step(st, r);
      Step(st', Read(response.contract.id)) == (st', Shown(response.contract))
  {
    StoreShapes(st, r);
    var (st', response) := Step(st, r);
    if r.Create? {
      IndexOfUnique(st'.store, r.newId, |st.store|);
    } else {
      CommandKeepsId(Get(st, r.id), r);
      IndexOfUnique(st'.store, r.id, IndexOf(st.store, r.id));
    }
  }

  /** An accepted creation is a complete request under an unused number; it appends one draft with
      version 1 and the body's own values. */
  lemma CreatedAsAsked(st: State, r: Request)
    requires r.Create?
    ensures Step(st, r).1.Accepted? <==>
      && st.createAllowed && Truthy(r.body.clientId) && Truthy(r.body.unitId) && Truthy(r.body.contractNumber)
      && Truthy(r.body.title) && Truthy(r.body.validFrom)
      && forall c :: c in st.store ==> Some(c.terms.contractNumber) != r.body.contractNumber
    ensures Step(st, r).1.Accepted? ==>
      var c := Step(st, r).1.contract;
      && Step(st, r).0.store == st.store + [c]
      && c.id == r.newId && c.status == Draft && c.rowVersion == 1
      && Some(c.clientId) == r.body.clientId && Some(c.unitId) == r.body.unitId
      && Some(c.terms.contractNumber) == r.body.contractNumber && Some(c.terms.title) == r.body.title
      && Some(c.terms.validFrom) == r.body.validFrom && c.terms.validTo.Some?
      && (r.body.validTo.Some? ==> c.terms.validTo == r.body.validTo)
      && (r.body.validTo.None? ==> c.terms.validTo == Some("2027-12-31"))
      && (r.body.currencyCode.Some? ==> Some(c.terms.currencyCode) == r.body.currencyCode)
      && (r.body.currencyCode.None? ==> c.terms.currencyCode == "BRL")
      && c.terms.scopeDescription == r.body.scopeDescription && c.terms.paymentTerms == r.body.paymentTerms
      && c.terms.paymentMethod == r.body.paymentMethod
      && c.activatedAt.None? && c.closedAt.None? && c.closureReason.None?
  {
  }

  predicate Sets(f: Field) {
    f.Null? || (f.Text? && f.text != "")
  }

  /** Editing twice with one body is editing once, and a field whose own entry sets nothing keeps
      its value; `null` clears the optional fields only. */
  lemma EditsAreLocal(t: Terms, b: PatchBody)
    ensures var e := EditedTerms(t, b);
      && EditedTerms(e, b) == e
      && (!Sets(b.contractNumber) || b.contractNumber.Null? ==> e.contractNumber == t.contractNumber)
      && (!Sets(b.title) || b.title.Null? ==> e.title == t.title)
      && (!Sets(b.validFrom) || b.validFrom.Null? ==> e.validFrom == t.validFrom)
      && (!Sets(b.currencyCode) || b.currencyCode.Null? ==> e.currencyCode == t.currencyCode)
      && (!Sets(b.scopeDescription) ==> e.scopeDescription == t.scopeDescription)
      && (!Sets(b.validTo) ==> e.validTo == t.validTo)
      && (!Sets(b.paymentTerms) ==> e.paymentTerms == t.paymentTerms)
      && (!Sets(b.paymentMethod) ==> e.paymentMethod == t.paymentMethod)
      && (b.validTo.Null? ==> e.validTo == None)
  {
  }

  // ----- Optimistic locking ---------------------------------------------------------------------

  predicate CarriesVersion(r: Request, id: Id, v: int) {
    (r.Patch? || r.Activate? || r.Close?) && r.id == id && r.rowVersion == Some(v)
  }

  lemma WinnerTakesVersion(st: State, r: Request, id: Id, v: int)
    requires CarriesVersion(r, id, v) && Step(st, r).1.Accepted?
    ensures Holds(st, id) && Get(st, id).rowVersion == v
    ensures Holds(Step(st, r).0, id) && Get(Step(st, r).0, id).rowVersion == v + 1
  {
    ContractStep(st, r, id);
  }

  ghost predicate HasVersion(st: State, id: Id, v: int) {
    Holds(st, id) && Get(st, id).rowVersion == v
  }

  lemma StaleIsRefused(st: State, rs: seq<Request>, id: Id, v: int, i: nat)
    requires i < |rs| && CarriesVersion(rs[i], id, v) && !HasVersion(StateAt(st, rs, i), id, v)
    ensures !ResponseAt(st, rs, i).Accepted?
  {
    if ResponseAt(st, rs, i).Accepted? {
      WinnerTakesVersion(StateAt(st, rs, i), rs[i], id, v);
    }
  }

  lemma WinnerRaises(st: State, rs: seq<Request>, id: Id, v: int, i: nat)
    requires i < |rs| && CarriesVersion(rs[i], id, v) && ResponseAt(st, rs, i).Accepted?
    ensures HasVersion(StateAt(st, rs, i + 1), id, v + 1)
  {
    WinnerTakesVersion(StateAt(st, rs, i), rs[i], id, v);
  }

  lemma RaisedForGood(st: State, rs: seq<Request>, id: Id, v: int, m: nat, n: nat)
    requires m <= n <= |rs| && HasVersion(StateAt(st, rs, m), id, v + 1)
    ensures !HasVersion(StateAt(st, rs, n), id, v)
  {
    VersionNeverFalls(st, rs, id, m, n);
  }

  /** Of all PATCH, activate and close commands that carry one version of one contract, a run accepts
      at most one, whatever else happens in between. */
  lemma AtMostOneWinnerPerVersion(st: State, rs: seq<Request>, id: Id, v: int, i: nat, j: nat)
    requires i < j < |rs| && CarriesVersion(rs[i], id, v) && CarriesVersion(rs[j], id, v)
    ensures !(ResponseAt(st, rs, i).Accepted? && ResponseAt(st, rs, j).Accepted?)
  {
    if ResponseAt(st, rs, i).Accepted? {
      WinnerRaises(st, rs, id, v, i);
      RaisedForGood(st, rs, id, v, i + 1, j);
      StaleIsRefused(st, rs, id, v, j);
    }
  }

  /** A command is accepted exactly when its contract is addressable, no injected conflict is
      pending, the status fits, and -- except for expire, which carries none -- the version is
      current. */
  lemma AcceptedIff(st: State, r: Request)
    requires r.Patch? || r.Activate? || r.Close? || r.Expire?
    ensures Step(st, r).1.Accepted? <==>
      && Holds(st, r.id) && r.id != PROBE_CONTRACT_ID && !st.conflictPending
      && Get(st, r.id).status == (if r.Close? || r.Expire? then Active else Draft)
      && (r.Expire? || r.rowVersion == Some(Get(st, r.id).rowVersion))
  {
  }

  /** Expire is not idempotent: right after an accepted one the next is refused. */
  lemma SecondExpireRefused(st: State, id: Id, now: Time, later: Time)
    requires Step(st, Expire(id, now)).1.Accepted?
    ensures var st' := Step(st, Expire(id, now)).0;
      Step(st', Expire(id, later)) == (st', Refused(InvalidState))
  {
    ContractStep(st, Expire(id, now), id);
    AcceptedIff(st, Expire(id, now));
  }

  // ----- What each command does -----------------------------------------------------------------

  /** Everything but status, dates, reason, terms and version. */
  predicate SameIdentity(c: Contract, c': Contract) {
    c'.id == c.id && c'.internalCode == c.internalCode && c'.clientId == c.clientId && c'.unitId == c.unitId
  }

  /** Each accepted command, by what it is called. */
  lemma CommandEffects(c: Contract, r: Request)
    requires !r.Create? && !r.InjectConflict? && Command(c, r).Accepted?
    ensures var c' := Command(c, r).contract;
      && SameIdentity(c, c') && c'.rowVersion == c.rowVersion + 1 && c'.updatedAt == r.now
      && (r.Patch? ==> c'.status == c.status && c'.terms == EditedTerms(c.terms, r.changes))
      && (!r.Patch? ==> c'.terms == c.terms)
      && (r.Activate? ==> c'.status == Active)
      && c'.activatedAt == (if r.Activate? then Some(r.now) else c.activatedAt)
      && (r.Close? ==> c'.status == Closed && c'.closureReason == r.reason)
      && c'.closedAt == (if r.Close? then Some(r.now) else c.closedAt)
      && (!r.Close? ==> c'.closureReason == c.closureReason)
      && (r.Expire? ==> c'.status == Expired)
  {
  }

  /** Every non-empty text of a PATCH body is taken, and `null` clears each optional field. */
  lemma EditsAreTaken(t: Terms, b: PatchBody, text: string)
    requires text != ""
    ensures var e := EditedTerms(t, b);
      && (b.contractNumber == Text(text) ==> e.contractNumber == text)
      && (b.title == Text(text) ==> e.title == text)
      && (b.scopeDescription == Text(text) ==> e.scopeDescription == Some(text))
      && (b.validFrom == Text(text) ==> e.validFrom == text)
      && (b.validTo == Text(text) ==> e.validTo == Some(text))
      && (b.currencyCode == Text(text) ==> e.currencyCode == text)
      && (b.paymentTerms == Text(text) ==> e.paymentTerms == Some(text))
      && (b.paymentMethod == Text(text) ==> e.paymentMethod == Some(text))
      && (b.scopeDescription.Null? ==> e.scopeDescription == None)
      && (b.paymentTerms.Null? ==> e.paymentTerms == None)
      && (b.paymentMethod.Null? ==> e.paymentMethod == None)
  {
  }

  /** What the store holds after an accepted command, by what the command is called. */
  lemma AcceptedEffects(st: State, r: Request, id: Id)
    requires Holds(st, id) && Mutates(r, id) && Step(st, r).1.Accepted?
    ensures Holds(Step(st, r).0, id)
    ensures var (c, c') := (Get(st, id), Get(Step(st, r).0, id));
      && SameIdentity(c, c') && c'.rowVersion == c.rowVersion + 1 && c'.updatedAt == r.now
      && match r
         case Patch(_, _, changes, _) =>
           c' == c.(terms := EditedTerms(c.terms, changes), rowVersion := c.rowVersion + 1, updatedAt := r.now)
         case Activate(_, _, now) => c'.status == Active && c'.activatedAt == Some(now) && c'.terms == c.terms
         case Close(_, _, reason, now) =>
           && c'.status == Closed && c'.closedAt == Some(now) && c'.closureReason == reason
           && c'.activatedAt == c.activatedAt && c'.terms == c.terms
         case _ =>
           && c'.status == Expired && c'.closedAt == c.closedAt && c'.closureReason == c.closureReason
           && c'.activatedAt == c.activatedAt && c'.terms == c.terms
  {
    ContractStep(st, r, id);
    CommandEffects(Get(st, id), r);
  }

  /** The status that a command is meant to bring about; a PATCH names none. */
  function StatusNamed(r: Request): Option<Status> {
    match r
    case Activate(_, _, _) => Some(Active)
    case Close(_, _, _, _) => Some(Closed)
    case Expire(_, _) => Some(Expired)
    case _ => None
  }

  /** The status named for that contract by one request, if the request is accepted. */
  function NamedBy(st: State, r: Request, id: Id): Option<Status> {
    if Mutates(r, id) && Step(st, r).1.Accepted? then StatusNamed(r) else None
  }

  ghost predicate NamedAt(st: State, rs: seq<Request>, id: Id, status: Status, i: nat)
    requires i < |rs|
  {
    NamedBy(StateAt(st, rs, i), rs[i], id) == Some(status)
  }

  ghost predicate HasStatus(st: State, id: Id, status: Status) {
    Holds(st, id) && Get(st, id).status == status
  }

  /** The status named by the last accepted command between two points, or else the one at the start. */
  function LastNamed(st: State, rs: seq<Request>, id: Id, start: Status, m: nat, n: nat): Status
    requires m <= n <= |rs|
    decreases n
  {
    if m == n then start
    else OrElse(NamedBy(StateAt(st, rs, n - 1), rs[n - 1], id), LastNamed(st, rs, id, start, m, n - 1))
  }

  lemma StatusStep(st: State, r: Request, id: Id, before: Status)
    requires HasStatus(st, id, before)
    ensures HasStatus(Step(st, r).0, id, OrElse(NamedBy(st, r, id), before))
  {
    ContractStep(st, r, id);
    if Mutates(r, id) && Step(st, r).1.Accepted? {
      AcceptedEffects(st, r, id);
    }
  }

  lemma StatusAtNext(st: State, rs: seq<Request>, id: Id, n: nat, before: Status)
    requires 0 < n <= |rs| && HasStatus(StateAt(st, rs, n - 1), id, before)
    ensures HasStatus(StateAt(st, rs, n), id, OrElse(NamedBy(StateAt(st, rs, n - 1), rs[n - 1], id), before))
  {
    StatusStep(StateAt(st, rs, n - 1), rs[n - 1], id, before);
  }

  /** At any point of a run a contract has the status named by the last accepted command on it that is
      no PATCH. */
  lemma {:induction false} StatusIsLastNamed(st: State, rs: seq<Request>, id: Id, start: Status, m: nat, n: nat)
    requires m <= n <= |rs| && HasStatus(StateAt(st, rs, m), id, start)
    ensures HasStatus(StateAt(st, rs, n), id, LastNamed(st, rs, id, start, m, n))
    decreases n
  {
    if m < n {
      StatusIsLastNamed(st, rs, id, start, m, n - 1);
      StatusAtNext(st, rs, id, n, LastNamed(st, rs, id, start, m, n - 1));
    }
  }

  lemma NamedHolds(st: State, rs: seq<Request>, id: Id, status: Status, i: nat)
    requires i < |rs| && NamedAt(st, rs, id, status, i)
    ensures HasStatus(StateAt(st, rs, i), id, if status == Active then Draft else Active)
    ensures HasStatus(StateAt(st, rs, i + 1), id, status) && status != Draft
  {
    AcceptedIff(StateAt(st, rs, i), rs[i]);
    AcceptedEffects(StateAt(st, rs, i), rs[i], id);
  }

  lemma StatusOnward(st: State, rs: seq<Request>, id: Id, m: nat, n: nat, from: Status, to: Status)
    requires m <= n <= |rs| && HasStatus(StateAt(st, rs, m), id, from) && HasStatus(StateAt(st, rs, n), id, to)
    ensures from == to || from == Draft || (from == Active && to in {Closed, Expired})
  {
    Lifecycle(st, rs, id, m, n);
  }

  lemma OnwardFromNamed(st: State, rs: seq<Request>, id: Id, i: nat, n: nat, status: Status, to: Status)
    requires i < n <= |rs| && NamedAt(st, rs, id, status, i) && HasStatus(StateAt(st, rs, n), id, to)
    ensures to == status || (status == Active && to in {Closed, Expired})
  {
    NamedHolds(st, rs, id, status, i);
    StatusOnward(st, rs, id, i + 1, n, status, to);
  }

  /** Of one contract a run accepts at most one activate, and at most one of close and expire. */
  lemma AtMostOnce(st: State, rs: seq<Request>, id: Id, i: nat, j: nat, s1: Status, s2: Status)
    requires i < j < |rs| && NamedAt(st, rs, id, s1, i) && NamedAt(st, rs, id, s2, j)
    ensures s1 == Active && s2 in {Closed, Expired}
  {
    NamedHolds(st, rs, id, s2, j);
    OnwardFromNamed(st, rs, id, i, j, s1, if s2 == Active then Draft else Active);
  }

  lemma {:induction false} NamedSince(st: State, rs: seq<Request>, id: Id, start: Status, m: nat, n: nat)
      returns (i: nat)
    requires m <= n <= |rs| && LastNamed(st, rs, id, start, m, n) != start
    ensures m <= i < n && NamedAt(st, rs, id, LastNamed(st, rs, id, start, m, n), i)
    decreases n
  {
    i := n - 1;
    if NamedBy(StateAt(st, rs, i), rs[i], id).None? {
      i := NamedSince(st, rs, id, start, m, i);
    }
  }

  /** A contract that starts as a draft is closed or expired only after an accepted activate. */
  lemma EndsAfterActivation(st: State, rs: seq<Request>, id: Id, m: nat, j: nat, status: Status)
    requires m <= j < |rs| && HasStatus(StateAt(st, rs, m), id, Draft)
    requires status in {Closed, Expired} && NamedAt(st, rs, id, status, j)
    ensures exists i :: m <= i < j && NamedAt(st, rs, id, Active, i)
  {
    NamedHolds(st, rs, id, status, j);
    StatusIsLastNamed(st, rs, id, Draft, m, j);
    var i := NamedSince(st, rs, id, Draft, m, j);
  }

  lemma ActivationDated(st: State, rs: seq<Request>, id: Id, i: nat)
    requires i < |rs| && NamedAt(st, rs, id, Active, i)
    ensures HasStatus(StateAt(st, rs, i + 1), id, Active)
    ensures Get(StateAt(st, rs, i + 1), id).activatedAt == Some(rs[i].now)
  {
    NamedHolds(st, rs, id, Active, i);
    AcceptedEffects(StateAt(st, rs, i), rs[i], id);
  }

  /** The date of an accepted activate stays for the rest of the run. */
  lemma ActivationIsKept(st: State, rs: seq<Request>, id: Id, i: nat, n: nat)
    requires i < n <= |rs| && NamedAt(st, rs, id, Active, i)
    ensures Holds(StateAt(st, rs, n), id) && Get(StateAt(st, rs, n), id).activatedAt == Some(rs[i].now)
  {
    ActivationDated(st, rs, id, i);
    Lifecycle(st, rs, id, i + 1, n);
  }

  lemma CloseRecorded(st: State, rs: seq<Request>, id: Id, i: nat)
    requires i < |rs| && NamedAt(st, rs, id, Closed, i)
    ensures HasStatus(StateAt(st, rs, i + 1), id, Closed)
    ensures var c := Get(StateAt(st, rs, i + 1), id);
      c.closedAt == Some(rs[i].now) && c.closureReason == rs[i].reason
  {
    NamedHolds(st, rs, id, Closed, i);
    AcceptedEffects(StateAt(st, rs, i), rs[i], id);
  }

  /** So do the date and the reason of an accepted close. */
  lemma CloseIsKept(st: State, rs: seq<Request>, id: Id, i: nat, n: nat)
    requires i < n <= |rs| && NamedAt(st, rs, id, Closed, i)
    ensures Holds(StateAt(st, rs, n), id)
    ensures var c := Get(StateAt(st, rs, n), id);
      c.status == Closed && c.closedAt == Some(rs[i].now) && c.closureReason == rs[i].reason
  {
    CloseRecorded(st, rs, id, i);
    Lifecycle(st, rs, id, i + 1, n);
  }

  // ----- Why a request is refused ---------------------------------------------------------------

  predicate Addressable(st: State, id: Id) {
    Holds(st, id) && id != PROBE_CONTRACT_ID
  }

  /** The request reaches its contract past an injected conflict. */
  predicate Reached(st: State, r: Request) {
    !r.Create? && !r.InjectConflict? && Addressable(st, r.id) && (r.Read? || !st.conflictPending)
  }

  predicate StatusFits(c: Contract, r: Request) {
    ((r.Patch? || r.Activate?) && c.status == Draft) || ((r.Close? || r.Expire?) && c.status == Active)
  }

  lemma NoText(s: Option<string>)
    ensures !Truthy(s) <==> s in {None, Some("")}
  {
    assert s == None || s == Some(s.value);
  }

  /** A read that reaches its contract, and a document link with both its texts, show the contract. */
  lemma ShownIff(st: State, r: Request)
    ensures Step(st, r).1.Shown? <==>
      Reached(st, r) && (r.Read? || (r.LinkDocument? && Truthy(r.documentId) && Truthy(r.linkPurpose)))
    ensures Step(st, r).1.Shown? ==> Step(st, r).1.contract == Get(st, r.id)
  {
  }

  /** Each error exactly for its reason: a wrong status is reported before a wrong version, and an
      injected conflict before either. */
  lemma RefusedIff(st: State, r: Request)
    requires !r.Create? && !r.InjectConflict?
    ensures var response := Step(st, r).1;
      && (response == Refused(ContractNotFound) <==> !Addressable(st, r.id) || (Reached(st, r) && r.Stray?))
      && (response == Refused(InvalidState) <==>
            Reached(st, r) && Mutates(r, r.id) && !StatusFits(Get(st, r.id), r))
      && (response == Refused(VersionConflict) <==>
            || (Addressable(st, r.id) && !Reached(st, r))
            || (Reached(st, r) && StatusFits(Get(st, r.id), r) && !r.Expire?
                && r.rowVersion != Some(Get(st, r.id).rowVersion)))
      && (response == Refused(ValidationFailed) <==>
            Reached(st, r) && r.LinkDocument?
            && (r.documentId in {None, Some("")} || r.linkPurpose in {None, Some("")}))
  {
    if r.LinkDocument? {
      NoText(r.documentId);
      NoText(r.linkPurpose);
    }
  }

  lemma RequiredFields(b: CreateBody)
    ensures var required := [b.clientId, b.unitId, b.contractNumber, b.title, b.validFrom];
      Incomplete(b) <==> None in required || Some("") in required
  {
    var required := [b.clientId, b.unitId, b.contractNumber, b.title, b.validFrom];
    assert forall s :: s in required <==>
      s == b.clientId || s == b.unitId || s == b.contractNumber || s == b.title || s == b.validFrom;
    NoText(b.clientId);
    NoText(b.unitId);
    NoText(b.contractNumber);
    NoText(b.title);
    NoText(b.validFrom);
  }

  /** Creation is refused for the first of three reasons. */
  lemma CreateRefusedIff(st: State, r: Request)
    requires r.Create?
    ensures var response, required := Step(st, r).1,
        [r.body.clientId, r.body.unitId, r.body.contractNumber, r.body.title, r.body.validFrom];
      && (response == Refused(CommercialDenied) <==> !st.createAllowed)
      && (response == Refused(ValidationFailed) <==> st.createAllowed && (None in required || Some("") in required))
      && (response == Refused(ContractDuplicate) <==>
            && st.createAllowed && None !in required && Some("") !in required
            && exists c :: c in st.store && Some(c.terms.contractNumber) == r.body.contractNumber)
  {
    RequiredFields(r.body);
  }

  /** An injected conflict waits for the next request, other than a read or a creation, that names a
      contract in the store; it refuses that one and is gone. */
  lemma ConflictWaits(st: State, r: Request)
    ensures Step(st, r).0.conflictPending <==>
      r.InjectConflict? || (st.conflictPending && (r.Create? || r.Read? || !Addressable(st, r.id)))
    ensures st.conflictPending && !Step(st, r).0.conflictPending ==>
      Step(st, r) == (st.(conflictPending := false), Refused(VersionConflict))
  {
  }

  // ----- Contract numbers -----------------------------------------------------------------------

  ghost predicate DistinctNumbers(store: seq<Contract>) {
    forall i, j :: 0 <= i < j < |store| ==> store[i].terms.contractNumber != store[j].terms.contractNumber
  }

  /** The edit gives the contract a number that another contract has. */
  ghost predicate StealsNumber(st: State, r: Request)
    requires r.Patch? && Holds(st, r.id)
  {
    exists i :: 0 <= i < |st.store| && i != IndexOf(st.store, r.id)
      && st.store[i].terms.contractNumber == Edited(r.changes.contractNumber, Get(st, r.id).terms.contractNumber)
  }

  /** The guard of PATCH lets the edit through and its number is in use. */
  ghost predicate TakesNumberInUse(st: State, r: Request) {
    && r.Patch? && Holds(st, r.id) && r.id != PROBE_CONTRACT_ID && !st.conflictPending
    && Get(st, r.id).status == Draft && r.rowVersion == Some(Get(st, r.id).rowVersion)
    && StealsNumber(st, r)
  }

  /** Distinct numbers stay distinct under every request except exactly an admissible PATCH to a
      number in use: PATCH does not repeat the check that creation makes. */
  lemma NumbersStayDistinctIff(st: State, r: Request)
    requires DistinctNumbers(st.store)
    ensures DistinctNumbers(Step(st, r).0.store) <==> !TakesNumberInUse(st, r)
  {
    if r.Patch? && Step(st, r).1.Accepted? {
      var k, store' := IndexOf(st.store, r.id), Step(st, r).0.store;
      if StealsNumber(st, r) {
        var i :| 0 <= i < |st.store| && i != k && st.store[i].terms.contractNumber == store'[k].terms.contractNumber;
        assert store'[i] == st.store[i];
      }
    }
  }

  ghost predicate DistinctAt(st: State, rs: seq<Request>, n: nat)
    requires n <= |rs|
  {
    DistinctNumbers(StateAt(st, rs, n).store)
  }

  ghost predicate TakesAt(st: State, rs: seq<Request>, n: nat)
    requires n < |rs|
  {
    TakesNumberInUse(StateAt(st, rs, n), rs[n])
  }

  /** Over a run, numbers are distinct in every state exactly when no request of it is an admissible
      PATCH to a number in use. */
  lemma {:induction false} NumbersDistinctThroughoutIff(st: State, rs: seq<Request>, n: nat)
    requires DistinctNumbers(st.store) && n <= |rs|
    ensures (forall i :: 0 <= i <= n ==> DistinctAt(st, rs, i)) <==> (forall i :: 0 <= i < n ==> !TakesAt(st, rs, i))
  {
    if n == 0 {
      assert DistinctAt(st, rs, 0);
    } else {
      NumbersDistinctThroughoutIff(st, rs, n - 1);
      OneMoreDistinct(st, rs, n);
      assert 0 <= n - 1 < n;
    }
  }

  lemma OneMoreDistinct(st: State, rs: seq<Request>, n: nat)
    requires 0 < n <= |rs|
    ensures DistinctAt(st, rs, n - 1) ==> (DistinctAt(st, rs, n) <==> !TakesAt(st, rs, n - 1))
  {
    if DistinctAt(st, rs, n - 1) {
      NumbersStayDistinctIff(StateAt(st, rs, n - 1), rs[n - 1]);
    }
  }

  const NO_CHANGES: PatchBody := PatchBody(Absent, Absent, Absent, Absent, Absent, Absent, Absent, Absent)

  /** The seeded draft can take the number of the first active contract. */
  lemma SeededTheft()
    ensures var st := Initial(true, false);
      var r := Patch(CONTRACT_C.id, Some(1), NO_CHANGES.(contractNumber := Text("CTR-ACT-001")), 0);
      DistinctNumbers(st.store) && Step(st, r).1.Accepted? && !DistinctNumbers(Step(st, r).0.store)
  {
    var st := Initial(true, false);
    var r := Patch(CONTRACT_C.id, Some(1), NO_CHANGES.(contractNumber := Text("CTR-ACT-001")), 0);
    assert CONTRACT_A.id[0] == 'a' && CONTRACT_B.id[0] == 'b' && CONTRACT_C.id[0] == 'c' && PROBE_CONTRACT_ID[0] == '0';
    IndexOfUnique(st.store, CONTRACT_C.id, 2);
    SeededNumbers();
    var store' := Step(st, r).0.store;
    assert store'[0].terms.contractNumber == store'[2].terms.contractNumber;
  }

  lemma SeededNumbers()
    ensures DistinctNumbers([CONTRACT_A, CONTRACT_B, CONTRACT_C])
  {
    assert CONTRACT_A.terms.contractNumber[10] == '1' && CONTRACT_B.terms.contractNumber[10] == '2';
    assert |CONTRACT_C.terms.contractNumber| == 13;
  }
}
