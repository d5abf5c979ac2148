/** PKCE verifiers and challenges (sections 4.1 and 4.2 of RFC 7636) and the
    one-time store of OAuth states. */
module Pkce {
  import opened Text
  import opened Base64

  datatype Verifier = Verifier(text: string) | BadLength

  /** `unreserved` of section 4.1 of RFC 7636. */
  predicate Unreserved(c: char) {
    'A' <= c <= 'Z' || 'a' <= c <= 'z' || '0' <= c <= '9' || c in "-._~"
  }

  function NumBytes(length: nat): nat { length * 3 / 4 + 1 }

  /** `generate_code_verifier`, given the source of random bytes. */
  function GenerateCodeVerifier(length: int, random: nat -> seq<Byte>): Verifier {
    if length < 43 || length > 128 then BadLength
    else
      var text := Bare(UrlSafe, random(NumBytes(length)));
      Verifier(if length <= |text| then text[..length] else text)
  }

  ghost predicate RandomBytes(random: nat -> seq<Byte>) {
    forall n :: |random(n)| == n
  }

  lemma {:induction false} UrlSafeIsUnreserved(c: char)
    requires UrlSafe.Has(c)
    ensures Unreserved(c)
  {}

  /** The chosen number of bytes always yields enough characters: a verifier has exactly the requested
      length and only unreserved characters, and only lengths outside 43..128 are refused. */
  lemma {:induction false} VerifierExact(length: int, random: nat -> seq<Byte>)
    requires RandomBytes(random)
    ensures var v := GenerateCodeVerifier(length, random);
      && (v == BadLength <==> length < 43 || length > 128)
      && (v.Verifier? ==> |v.text| == length && forall i :: 0 <= i < length ==> Unreserved(v.text[i]))
  {
    if 43 <= length <= 128 {
      var b := random(NumBytes(length));
      assert |b| == NumBytes(length);
      BareIsData(UrlSafe, b);
      assert |Sextets(b)| == (8 * |b| + 5) / 6 >= length;
      var text := Bare(UrlSafe, b);
      hide Bare, Sextets, Unreserved;
      forall i | 0 <= i < length ensures Unreserved(text[i]) { UrlSafeIsUnreserved(text[i]); }
    }
  }

  /** `generate_code_challenge`, over the digest of the verifier. */
  function GenerateCodeChallenge(sha256: string -> seq<Byte>, verifier: string): string {
    Bare(UrlSafe, sha256(verifier))
  }

  /** A challenge has 43 unreserved characters, and challenges of different digests differ. */
  lemma {:induction false} ChallengeExact(sha256: string -> seq<Byte>, verifier: string, other: string)
    requires |sha256(verifier)| == 32
    ensures var c := GenerateCodeChallenge(sha256, verifier);
      && |c| == 43 && (forall i :: 0 <= i < |c| ==> Unreserved(c[i]))
      && (c == GenerateCodeChallenge(sha256, other) <==> sha256(verifier) == sha256(other))
  {
    var c := GenerateCodeChallenge(sha256, verifier);
    BareIsData(UrlSafe, sha256(verifier));
    assert |Sextets(sha256(verifier))| == 43;
    EncodeInjective(UrlSafe, sha256(verifier), sha256(other));
    hide Bare, Sextets, Unreserved;
    forall i | 0 <= i < |c| ensures Unreserved(c[i]) { UrlSafeIsUnreserved(c[i]); }
  }

  // ---- the store of states ----

  datatype OAuthState = OAuthState(
    state: string, verifier: string, redirectUri: string, provider: string, createdAt: string)

  datatype Entry = Entry(value: OAuthState, expiry: int)

  const STATE_TTL: int := 600
  const STATE_PREFIX: string := "oauth_state:"

  function StateKey(state: string): string { STATE_PREFIX + state }

  /** What happened to a store, each thing an atomic Redis command, with what it answered. */
  datatype Event =
    | Stored(value: OAuthState, at: int)
    | Got(state: string, answer: Option<OAuthState>, at: int)
    | Consumed(state: string, answer: Option<OAuthState>, at: int)

  /** What is held under a state: the last thing stored there, unless consumed since. */
  function Held(log: seq<Event>, state: string): Option<Entry> {
    if log == [] then None
    else
      var n := |log| - 1;
      match log[n]
      case Stored(value, at) =>
        if value.state == state then Some(Entry(value, at + STATE_TTL)) else Held(log[..n], state)
      case Got(_, _, _) => Held(log[..n], state)
      case Consumed(other, _, _) => if other == state then None else Held(log[..n], state)
  }

  /** What Redis answers at a moment. */
  function Read(held: Option<Entry>, now: int): Option<OAuthState> {
    if held.Some? && now < held.value.expiry then Some(held.value.value) else None
  }

  /** Every answer of a log is what was held, and every stored state was fresh. */
  ghost predicate Lawful(log: seq<Event>) {
    forall n :: 0 <= n < |log| ==>
      match log[n]
      case Stored(value, _) => Fresh(log[..n], value.state)
      case Got(state, answer, at) => answer == Read(Held(log[..n], state), at)
      case Consumed(state, answer, at) => answer == Read(Held(log[..n], state), at)
  }

  /** No earlier state has this name; the names are 32 random bytes. */
  predicate Fresh(log: seq<Event>, state: string) {
    forall i :: 0 <= i < |log| && log[i].Stored? ==> log[i].value.state != state
  }

  /** What is held was stored, at the time its expiry says, and not consumed since. */
  lemma {:induction false} HeldWasStored(log: seq<Event>, state: string) returns (i: nat)
    requires Held(log, state).Some?
    ensures i < |log| && log[i].Stored? && log[i].value.state == state
    ensures Held(log, state).value == Entry(log[i].value, log[i].at + STATE_TTL)
    ensures forall j :: i < j < |log| ==> !(log[j].Consumed? && log[j].state == state)
  {
    var n := |log| - 1;
    if log[n].Stored? && log[n].value.state == state {
      i := n;
    } else {
      i := HeldWasStored(log[..n], state);
      forall j | i < j < |log| ensures !(log[j].Consumed? && log[j].state == state) {
        if j < n { assert log[..n][j] == log[j]; }
      }
    }
  }

  /** What was stored and neither stored over nor consumed is held. */
  lemma {:induction false} StoredIsHeld(log: seq<Event>, i: nat)
    requires i < |log| && log[i].Stored?
    requires forall j :: i < j < |log| ==>
      !(log[j].Consumed? && log[j].state == log[i].value.state)
      && !(log[j].Stored? && log[j].value.state == log[i].value.state)
    ensures Held(log, log[i].value.state) == Some(Entry(log[i].value, log[i].at + STATE_TTL))
  {
    var n := |log| - 1;
    if i < n {
      var before := log[..n];
      forall j | i < j < |before| ensures
        !(before[j].Consumed? && before[j].state == log[i].value.state)
        && !(before[j].Stored? && before[j].value.state == log[i].value.state)
      {
        assert before[j] == log[j];
      }
      assert before[i] == log[i];
      StoredIsHeld(before, i);
    }
  }

  /** The value was stored at i under the state consumed at n, less than 600 seconds before, and was not
      consumed in between. */
  predicate HandsOut(log: seq<Event>, i: int, n: int, value: OAuthState) {
    && 0 <= i < n < |log| && log[n].Consumed?
    && log[i].Stored? && log[i].value == value && value.state == log[n].state
    && log[n].at < log[i].at + STATE_TTL
    && forall j :: i < j < n ==> !(log[j].Consumed? && log[j].state == log[n].state)
  }

  /** A state is handed out by `consume_state` exactly when it was stored less than 600 seconds ago and not
      consumed before, and what is handed out is what was stored: the same verifier and redirect URI. */
  lemma {:induction false} ConsumedExactly(log: seq<Event>, n: nat, value: OAuthState)
    requires Lawful(log) && n < |log| && log[n].Consumed?
    ensures log[n].answer == Some(value) <==> exists i :: HandsOut(log, i, n, value)
  {
    var before, state := log[..n], log[n].state;
    assert log[n].answer == Read(Held(before, state), log[n].at);
    if log[n].answer == Some(value) {
      var i := HeldWasStored(before, state);
      assert before[i] == log[i];
      assert forall j :: i < j < n ==> before[j] == log[j];
      assert HandsOut(log, i, n, value);
    }
    if exists i :: HandsOut(log, i, n, value) {
      var i :| HandsOut(log, i, n, value);
      forall j | i < j < n ensures
        !(before[j].Consumed? && before[j].state == state) && !(before[j].Stored? && before[j].value.state == state)
      {
        assert before[j] == log[j];
        if log[j].Stored? {
          assert Fresh(log[..j], log[j].value.state) && log[..j][i] == log[i];
        }
      }
      assert before[i] == log[i];
      StoredIsHeld(before, i);
    }
  }

  /** No state is handed out twice. */
  lemma {:induction false} ConsumedOnce(log: seq<Event>, a: nat, b: nat)
    requires Lawful(log) && a < b < |log| && log[a].Consumed? && log[b].Consumed?
    requires log[a].state == log[b].state && log[a].answer.Some?
    ensures log[b].answer.None?
  {
    if log[b].answer.Some? {
      ConsumedExactly(log, b, log[b].answer.value);
      ConsumedExactly(log, a, log[a].answer.value);
      hide Lawful;
      var i :| HandsOut(log, i, b, log[b].answer.value);
      var k :| HandsOut(log, k, a, log[a].answer.value);
      assert i > a;
      StoredOnce(log, k, i);
    }
  }

  lemma {:induction false} StoredOnce(log: seq<Event>, k: nat, i: nat)
    requires Lawful(log) && k < i < |log| && log[k].Stored? && log[i].Stored?
    ensures log[k].value.state != log[i].value.state
  {
    assert Fresh(log[..i], log[i].value.state) && log[..i][k] == log[k];
  }

  class OAuthStateStore {
    var redis: map<string, Entry>
    ghost var log: seq<Event>

    /** Redis holds under every state what the log says. */
    ghost predicate Valid() reads this {
      && Lawful(log)
      && forall state ::
          (StateKey(state) in redis <==> Held(log, state).Some?)
          && (StateKey(state) in redis ==> Held(log, state) == Some(redis[StateKey(state)]))
    }

    constructor ()
      ensures Valid() && log == []
    {
      redis, log := map[], [];
    }

    /** Stores a fresh state with its verifier, and the text of the moment, for ten minutes. */
    method StoreState(provider: string, redirectUri: string, state: string, verifier: string,
        created: string, now: int)
      returns (stored: OAuthState)
      requires Valid() && Fresh(log, state)
      modifies this
      ensures Valid() && log == old(log) + [Stored(stored, now)]
      ensures stored == OAuthState(state, verifier, redirectUri, provider, created)
    {
      stored := OAuthState(state, verifier, redirectUri, provider, created);
      LogGrows(log, Stored(stored, now));
      hide Lawful, Held, StateKey, Fresh;
      redis := redis[StateKey(state) := Entry(stored, now + STATE_TTL)];
      log := log + [Stored(stored, now)];
    }

    method GetState(state: string, now: int) returns (answer: Option<OAuthState>)
      requires Valid()
      modifies this`log
      ensures Valid() && log == old(log) + [Got(state, answer, now)]
      ensures answer == Read(Held(old(log), state), now)
    {
      var key := StateKey(state);
      answer := if key in redis then Read(Some(redis[key]), now) else None;
      LogGrows(log, Got(state, answer, now));
      hide Lawful, Held, StateKey;
      log := log + [Got(state, answer, now)];
    }

    /** Reads and deletes in one transaction. */
    method ConsumeState(state: string, now: int) returns (answer: Option<OAuthState>)
      requires Valid()
      modifies this
      ensures Valid() && log == old(log) + [Consumed(state, answer, now)]
      ensures answer == Read(Held(old(log), state), now)
    {
      var key := StateKey(state);
      answer := if key in redis then Read(Some(redis[key]), now) else None;
      LogGrows(log, Consumed(state, answer, now));
      hide Lawful, Held, StateKey;
      redis := redis - {key};
      log := log + [Consumed(state, answer, now)];
    }
  }

  /** What is held under a state after one more event. */
  function HeldAfter(log: seq<Event>, e: Event, state: string): Option<Entry> {
    match e
    case Stored(value, at) => if value.state == state then Some(Entry(value, at + STATE_TTL)) else Held(log, state)
    case Got(_, _, _) => Held(log, state)
    case Consumed(other, _, _) => if other == state then None else Held(log, state)
  }

  lemma {:induction false} LogGrows(log: seq<Event>, e: Event)
    ensures Lawful(log) ==>
      (Lawful(log + [e]) <==>
        match e
        case Stored(value, _) => Fresh(log, value.state)
        case Got(state, answer, at) => answer == Read(Held(log, state), at)
        case Consumed(state, answer, at) => answer == Read(Held(log, state), at))
    ensures forall state :: Held(log + [e], state) == HeldAfter(log, e, state)
    ensures forall a, b :: StateKey(a) == StateKey(b) ==> a == b
  {
    var more := log + [e];
    assert more[..|log|] == log;
    forall n | 0 <= n < |log| ensures more[..n] == log[..n] && more[n] == log[n] {}
    forall a, b | StateKey(a) == StateKey(b) ensures a == b {
      assert StateKey(a)[|STATE_PREFIX|..] == a && StateKey(b)[|STATE_PREFIX|..] == b;
    }
  }
}
