/** An adversary who can rewrite the tables at will, but cannot sign. */
module CapsuleTampering {
  import opened Text
  import opened CapsuleCore

  /** What the services do, and what the adversary does: put any rows and constitutions in place of the tables. */
  datatype Move = Honest(op: Op) | Tamper(tables: State)

  /** The tables and every payload the registry has signed so far. */
  datatype World = World(tables: State, signed: set<Payload>)

  /** What an operation makes the registry sign. */
  function Signing(s: State, op: Op): set<Payload> {
    if op.Certify? && op.id in s.rows && s.rows[op.id].status == Draft && s.active.Some? && s.active.value in s.constitutions
    then {PayloadOf(s.rows[op.id].(constitution := s.active), s.constitutions).value}
    else {}
  }

  /** Every signature of the registry in the tables is one of the signed payloads: the adversary may copy signatures,
      also old ones, and make up foreign ones. */
  ghost predicate OnlyCopied(tables: State, signed: set<Payload>) {
    forall id :: id in tables.rows ==>
      var signature := tables.rows[id].signature;
      signature.Some? && signature.value.Signed? ==> signature.value.payload in signed
  }

  /** A tampering that would need a new signature does not succeed. */
  ghost function Next(setup: Setup, w: World, move: Move): World {
    match move
    case Honest(op) => World(Apply(setup, w.tables, op).0, w.signed + Signing(w.tables, op))
    case Tamper(tables) => if OnlyCopied(tables, w.signed) then w.(tables := tables) else w
  }

  ghost function Play(setup: Setup, moves: seq<Move>): World {
    if moves == [] then World(Empty(), {}) else Next(setup, Play(setup, moves[..|moves| - 1]), moves[|moves| - 1])
  }

  lemma {:induction false} CopiedInto(tables: State, id: nat, c: Capsule, signed: set<Payload>, more: set<Payload>)
    requires OnlyCopied(tables, signed) && signed <= more
    requires c.signature.Some? && c.signature.value.Signed? ==> c.signature.value.payload in more
    ensures OnlyCopied(Put(tables, id, c), more)
  {}

  lemma {:induction false} ApplyCopies(setup: Setup, tables: State, op: Op, signed: set<Payload>)
    requires OnlyCopied(tables, signed)
    ensures OnlyCopied(Apply(setup, tables, op).0, signed + Signing(tables, op))
  {
    hide Taken, OnlyCopied;
    var more, after := signed + Signing(tables, op), Apply(setup, tables, op).0;
    Widened(tables, signed, more);
    match op {
      case Create(id, name, version, tenant, soul, limits, policy, rest) =>
        CopiedInto(tables, id, Created(setup, name, version, tenant, soul, limits, policy, rest), signed, more);
      case Edit(id, u, newId) =>
        if id in tables.rows {
          RowCopied(tables, id, signed);
          CopiedInto(tables, id, Updated(tables.rows[id], u), signed, more);
          CopiedInto(tables, newId, Spawned(setup, id, tables.rows[id], u), signed, more);
        }
      case Certify(id) =>
        if after != tables {
          var c := Sealed(tables.rows[id], tables.active.value, tables.constitutions);
          assert c.signature.value.payload in Signing(tables, op);
          CopiedInto(tables, id, c, signed, more);
        }
      case Archive(id) =>
        if id in tables.rows {
          RowCopied(tables, id, signed);
          CopiedInto(tables, id, tables.rows[id].(status := Archived), signed, more);
        }
      case Activate(constitution, contentHash) =>
        SameRows(tables, after, more);
    }
  }

  lemma {:induction false} Widened(tables: State, signed: set<Payload>, more: set<Payload>)
    requires OnlyCopied(tables, signed) && signed <= more
    ensures OnlyCopied(tables, more)
  {}

  lemma {:induction false} SameRows(tables: State, after: State, signed: set<Payload>)
    requires OnlyCopied(tables, signed) && after.rows == tables.rows
    ensures OnlyCopied(after, signed)
  {}

  lemma {:induction false} RowCopied(tables: State, id: nat, signed: set<Payload>)
    requires OnlyCopied(tables, signed) && id in tables.rows
    ensures var signature := tables.rows[id].signature;
      signature.Some? && signature.value.Signed? ==> signature.value.payload in signed
  {}

  lemma {:induction false} PlayCopies(setup: Setup, moves: seq<Move>)
    ensures OnlyCopied(Play(setup, moves).tables, Play(setup, moves).signed)
  {
    if moves != [] {
      var n := |moves| - 1;
      PlayCopies(setup, moves[..n]);
      if moves[n].Honest? {
        hide Play, OnlyCopied;
        ApplyCopies(setup, Play(setup, moves[..n]).tables, moves[n].op, Play(setup, moves[..n]).signed);
        PlayStep(setup, moves);
      }
    }
  }

  lemma {:induction false} PlayStep(setup: Setup, moves: seq<Move>)
    requires moves != []
    ensures Play(setup, moves) == Next(setup, Play(setup, moves[..|moves| - 1]), moves[|moves| - 1])
  {
    hide Next;
  }

  /** The n-th move is a certification by the services that signed this payload. */
  ghost predicate SignedAt(setup: Setup, moves: seq<Move>, n: int, payload: Payload) {
    0 <= n < |moves| && moves[n].Honest? && payload in Signing(Play(setup, moves[..n]).tables, moves[n].op)
  }

  lemma {:induction false} SignedSomewhere(setup: Setup, moves: seq<Move>, payload: Payload) returns (n: nat)
    requires payload in Play(setup, moves).signed
    ensures SignedAt(setup, moves, n, payload)
  {
    var last := |moves| - 1;
    if moves[last].Honest? && payload in Signing(Play(setup, moves[..last]).tables, moves[last].op) {
      n := last;
    } else {
      n := SignedSomewhere(setup, moves[..last], payload);
      assert moves[..last][..n] == moves[..n];
    }
  }

  /** Whatever the adversary writes into the tables, and whenever: a capsule that is injected has, in all signed
      fields, the content that some certification by the services signed. */
  lemma {:induction false} InjectedWasCertified(setup: Setup, moves: seq<Move>, id: nat) returns (n: nat, payload: Payload)
    requires Inject(Play(setup, moves).tables, id).Injected?
    ensures SignedAt(setup, moves, n, payload)
    ensures var tables := Play(setup, moves).tables;
      id in tables.rows && PayloadOf(tables.rows[id], tables.constitutions) == Some(payload)
  {
    var w := Play(setup, moves);
    payload := PayloadOf(w.tables.rows[id], w.tables.constitutions).value;
    PlayCopies(setup, moves);
    assert w.tables.rows[id].signature == Some(Signed(payload));
    hide Play, SignedAt;
    n := SignedSomewhere(setup, moves, payload);
  }

  /** And a signed payload can be replayed: for any payload signed before, the adversary can have it injected again. */
  lemma {:induction false} SignedCanBeReplayed(setup: Setup, moves: seq<Move>, payload: Payload)
    requires payload in Play(setup, moves).signed
    ensures exists tables: State, id: nat ::
      Inject(Play(setup, moves + [Tamper(tables)]).tables, id).Injected?
      && PayloadOf(Inject(Play(setup, moves + [Tamper(tables)]).tables, id).capsule, tables.constitutions) == Some(payload)
  {
    var c := Capsule(payload.name, payload.version, payload.tenant, payload.soul, payload.limits, "", "", {}, Active, None,
                     Some(payload.constitution.id), "", Some(Signed(payload)));
    var tables := State(map[0 := c], map[payload.constitution.id := payload.constitution.contentHash], None);
    var more := moves + [Tamper(tables)];
    assert OnlyCopied(tables, Play(setup, moves).signed);
    assert more[..|more| - 1] == moves;
    PlayStep(setup, more);
    assert Play(setup, more).tables == tables;
    assert PayloadOf(c, tables.constitutions) == Some(payload);
    assert Inject(tables, 0) == Injected(c);
  }
}
