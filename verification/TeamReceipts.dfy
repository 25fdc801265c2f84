/** `operation`: a command with an operation id runs once; its reply is kept and returned again. */
module TeamReceipts {
  import opened Common
  import opened TeamModel
  import opened TeamInvariant
  import opened TeamCommands

  /** Ids that begin with a team's id and a colon belong to that team; deleting the team deletes their receipts. */
  datatype OperationId = OfTeam(teamId: Id, key: string) | Free(key: string)

  datatype Receipt = Receipt(input: string, reply: Option<Id>)

  datatype Ledger = Ledger(state: State, receipts: map<OperationId, Receipt>)

  datatype Request = Plain(command: Command) | Keyed(id: OperationId, input: string, command: Command)

  function WithoutTeam(receipts: map<OperationId, Receipt>, teamId: Id): map<OperationId, Receipt> {
    map id | id in receipts && !(id.OfTeam? && id.teamId == teamId) :: receipts[id]
  }

  function Perform(l: Ledger, c: Command): (Ledger, Reply) {
    var (t, reply) := Apply(l.state, c);
    (Ledger(t, if c.Drop? && reply.Ok? then WithoutTeam(l.receipts, c.teamId) else l.receipts), reply)
  }

  /** A keyed request is one transaction, so an error rolls everything back. */
  function Handle(l: Ledger, request: Request): (Ledger, Reply) {
    match request
    case Plain(c) => Perform(l, c)
    case Keyed(id, input, c) =>
      if id in l.receipts then
        (l, if l.receipts[id].input == input then Ok(l.receipts[id].reply) else Err(OperationConflict))
      else
        var (t, reply) := Perform(l, c);
        if reply.Err? then (l, reply) else (t.(receipts := t.receipts[id := Receipt(input, reply.value)]), reply)
  }

  function HandleAll(l: Ledger, requests: seq<Request>): Ledger
    decreases |requests|
  {
    if requests == [] then l else HandleAll(Handle(l, requests[0]).0, requests[1..])
  }

  /** The request that deletes the receipts of a team. */
  predicate Deletes(request: Request, id: OperationId) {
    request.command.Drop? && id.OfTeam? && id.teamId == request.command.teamId
  }

  lemma {:induction false} HandledValid(l: Ledger, requests: seq<Request>)
    requires Valid(l.state)
    ensures Valid(HandleAll(l, requests).state)
    decreases |requests|
  {
    hide Valid, Apply;
    if requests != [] {
      StepValid(l.state, requests[0].command);
      HandledValid(Handle(l, requests[0]).0, requests[1..]);
    }
  }

  lemma ReceiptStays(l: Ledger, id: OperationId, request: Request)
    requires id in l.receipts && !Deletes(request, id)
    ensures id in Handle(l, request).0.receipts && Handle(l, request).0.receipts[id] == l.receipts[id]
  {
    hide Apply;
  }

  lemma {:induction false} ReceiptsStay(l: Ledger, id: OperationId, requests: seq<Request>)
    requires id in l.receipts && forall i :: 0 <= i < |requests| ==> !Deletes(requests[i], id)
    ensures id in HandleAll(l, requests).receipts && HandleAll(l, requests).receipts[id] == l.receipts[id]
    decreases |requests|
  {
    hide Handle;
    if requests != [] {
      ReceiptStays(l, id, requests[0]);
      ReceiptsStay(Handle(l, requests[0]).0, id, requests[1..]);
    }
  }

  /**
   A request repeated after any other requests, restarts among them, changes nothing and gets its first reply, and
   with another input it is refused; unless the team was deleted in between.
   */
  lemma RepeatChangesNothing(l: Ledger, id: OperationId, input: string, c: Command, between: seq<Request>,
                             again: string, other: Command)
    requires Handle(l, Keyed(id, input, c)).1.Ok? && id !in l.receipts
    requires forall i :: 0 <= i < |between| ==> !Deletes(between[i], id)
    ensures var later := HandleAll(Handle(l, Keyed(id, input, c)).0, between);
            Handle(later, Keyed(id, again, other)) ==
            (later, if again == input then Handle(l, Keyed(id, input, c)).1 else Err(OperationConflict))
  {
    hide Apply;
    ReceiptsStay(Handle(l, Keyed(id, input, c)).0, id, between);
  }
}
