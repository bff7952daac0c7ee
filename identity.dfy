/** Entity identifiers and dyad identifiers: `normalizeEntityId` and
    `computeDyadId` of `src/harp.ts`. */
module Identity {
  import opened Wrappers
  import opened Strings
  import opened Types

  /** The three namespaces, by prefix, in the order the source tests them. */
  datatype Namespace = Erc8004 | Eth | Airc

  function NamespaceOf(id: string): Option<Namespace> {
    if StartsWith(id, "erc8004:") then Some(Erc8004)
    else if StartsWith(id, "eth:") then Some(Eth)
    else if StartsWith(id, "airc:") then Some(Airc)
    else None
  }

  /** The two numeric fields of an `erc8004:<chainId>:<agentId>` id, read with
      `parseInt`, when the id has exactly three colon-separated parts and both
      fields read as numbers. */
  function Erc8004Fields(id: string): Option<(int, int)> {
    var parts := Split(id, ":");
    if |parts| != 3 then None
    else match (ParseInt(parts[1]), ParseInt(parts[2]))
      case (Some(chainId), Some(agentId)) => Some((chainId, agentId))
      case _ => None
  }

  /** `normalizeEntityId`. */
  function NormalizeEntityId(id: string): (r: Result<string, HarpError>)
    ensures r.Failure? <==> NamespaceOf(id).None? || (NamespaceOf(id) == Some(Erc8004) && Erc8004Fields(id).None?)
    ensures NamespaceOf(id).None? ==> r == Failure(UnknownEntityIdFormat(id))
    ensures NamespaceOf(id) == Some(Erc8004) && Erc8004Fields(id).None? ==> r == Failure(InvalidErc8004Id(id))
    ensures NamespaceOf(id) == Some(Erc8004) && Erc8004Fields(id).Some? ==>
      r == Success("erc8004:" + IntString(Erc8004Fields(id).value.0) + ":" + IntString(Erc8004Fields(id).value.1))
    ensures NamespaceOf(id) == Some(Eth) ==> r == Success("eth:" + ToLower(id[4..]))
    ensures NamespaceOf(id) == Some(Airc) ==> r == Success("airc:" + Trim(ToLower(id[5..])))
  {
    if StartsWith(id, "erc8004:") then
      match Erc8004Fields(id)
      case None => Failure(InvalidErc8004Id(id))
      case Some((chainId, agentId)) => Success("erc8004:" + IntString(chainId) + ":" + IntString(agentId))
    else if StartsWith(id, "eth:") then Success("eth:" + ToLower(id[4..]))
    else if StartsWith(id, "airc:") then Success("airc:" + Trim(ToLower(id[5..])))
    else Failure(UnknownEntityIdFormat(id))
  }

  /** A normalised id keeps the namespace of the id it came from. */
  lemma NormalizeKeepsNamespace(id: string)
    requires NormalizeEntityId(id).Success?
    ensures NamespaceOf(NormalizeEntityId(id).value) == NamespaceOf(id)
  {
    match NamespaceOf(id).value
    case Erc8004 =>
      var (c, a) := Erc8004Fields(id).value;
      var rest := IntString(c) + ":" + IntString(a);
      assert NormalizeEntityId(id).value == "erc8004:" + rest;
      Erc8004Prefixed(rest);
    case Eth =>
      EthPrefixed(ToLower(id[4..]));
    case Airc =>
      AircPrefixed(Trim(ToLower(id[5..])));
  }

  lemma Erc8004Prefixed(rest: string)
    ensures NamespaceOf("erc8004:" + rest) == Some(Erc8004)
  {
    assert ("erc8004:" + rest)[..8] == "erc8004:";
  }

  lemma EthPrefixed(rest: string)
    ensures NamespaceOf("eth:" + rest) == Some(Eth)
  {
    var n := "eth:" + rest;
    assert n[..4] == "eth:" && n[1] == 't';
  }

  lemma AircPrefixed(rest: string)
    ensures NamespaceOf("airc:" + rest) == Some(Airc)
  {
    var n := "airc:" + rest;
    assert n[..5] == "airc:" && n[0] == 'a';
  }

  /** Splitting a rendered `erc8004` id on ":" gives back its three parts. */
  lemma SplitErc8004(c: int, a: int)
    ensures Split("erc8004:" + IntString(c) + ":" + IntString(a), ":") == ["erc8004", IntString(c), IntString(a)]
  {
    var cs, as_ := IntString(c), IntString(a);
    IntStringHasNoColon(c);
    IntStringHasNoColon(a);
    var tail := cs + [':'] + as_;
    assert "erc8004:" + cs + ":" + as_ == "erc8004" + [':'] + tail;
    SplitAtChar("erc8004", ':', tail);
    SplitAtChar(cs, ':', as_);
    SplitNoChar(as_, ':');
    assert ":" == [':'];
  }

  lemma Erc8004Idempotent(c: int, a: int)
    ensures NormalizeEntityId("erc8004:" + IntString(c) + ":" + IntString(a)) == Success("erc8004:" + IntString(c) + ":" + IntString(a))
  {
    var n := "erc8004:" + IntString(c) + ":" + IntString(a);
    assert n == "erc8004:" + (IntString(c) + ":" + IntString(a));
    assert n[..8] == "erc8004:";
    SplitErc8004(c, a);
    ParseIntOfIntString(c);
    ParseIntOfIntString(a);
    assert Erc8004Fields(n) == Some((c, a));
  }

  lemma EthIdempotent(rest: string)
    requires IsLower(rest)
    ensures NormalizeEntityId("eth:" + rest) == Success("eth:" + rest)
  {
    var n := "eth:" + rest;
    assert n[1] == 't';
    assert !StartsWith(n, "erc8004:");
    assert n[..4] == "eth:";
    assert StartsWith(n, "eth:");
    assert n[4..] == rest;
    ToLowerOfLower(rest);
    assert NormalizeEntityId(n) == Success("eth:" + ToLower(n[4..]));
  }

  lemma AircIdempotent(rest: string)
    requires IsLower(rest) && Trim(rest) == rest
    ensures NormalizeEntityId("airc:" + rest) == Success("airc:" + rest)
  {
    var n := "airc:" + rest;
    assert n[0] == 'a';
    assert !StartsWith(n, "erc8004:") && !StartsWith(n, "eth:");
    assert n[..5] == "airc:";
    assert StartsWith(n, "airc:");
    assert n[5..] == rest;
    ToLowerOfLower(rest);
    assert NormalizeEntityId(n) == Success("airc:" + Trim(ToLower(n[5..])));
  }

  /** Normalisation is idempotent: a normalised id is its own normal form. */
  lemma NormalizeIdempotent(id: string)
    requires NormalizeEntityId(id).Success?
    ensures NormalizeEntityId(NormalizeEntityId(id).value) == NormalizeEntityId(id)
  {
    match NamespaceOf(id).value
    case Erc8004 =>
      var (c, a) := Erc8004Fields(id).value;
      Erc8004Idempotent(c, a);
    case Eth =>
      ToLowerIsLower(id[4..]);
      EthIdempotent(ToLower(id[4..]));
    case Airc =>
      var lower := ToLower(id[5..]);
      ToLowerIsLower(id[5..]);
      LowerOfTrimmed(lower);
      TrimIdempotent(lower);
      AircIdempotent(Trim(lower));
  }

  /** The pair of normalised ids in JavaScript's string order. */
  function Ordered(a: string, b: string): (string, string) {
    if LexLess(a, b) then (a, b) else (b, a)
  }

  /** `computeDyadId`. */
  function ComputeDyadId(entityA: string, entityB: string): (r: Result<string, HarpError>)
    ensures NormalizeEntityId(entityA).Failure? ==> r == NormalizeEntityId(entityA).PropagateFailure()
    ensures NormalizeEntityId(entityA).Success? && NormalizeEntityId(entityB).Failure? ==>
      r == NormalizeEntityId(entityB).PropagateFailure()
  {
    var a :- NormalizeEntityId(entityA);
    var b :- NormalizeEntityId(entityB);
    if a == b then Failure(DegenerateDyad)
    else
      var (lo, hi) := Ordered(a, b);
      Success("harp:" + lo + ":" + hi)
  }

  /** A dyad id exists exactly when both ids normalise and differ; it is
      `harp:` followed by the smaller and the larger normal form. */
  lemma DyadIdShape(entityA: string, entityB: string)
    ensures ComputeDyadId(entityA, entityB).Success? <==>
      (NormalizeEntityId(entityA).Success? && NormalizeEntityId(entityB).Success?
       && NormalizeEntityId(entityA).value != NormalizeEntityId(entityB).value)
    ensures ComputeDyadId(entityA, entityB).Success? ==>
      var a, b := NormalizeEntityId(entityA).value, NormalizeEntityId(entityB).value;
      exists lo, hi :: {lo, hi} == {a, b} && LexLess(lo, hi)
        && ComputeDyadId(entityA, entityB).value == "harp:" + lo + ":" + hi
  {
    if ComputeDyadId(entityA, entityB).Success? {
      var a, b := NormalizeEntityId(entityA).value, NormalizeEntityId(entityB).value;
      LexLessTotal(a, b);
      var (lo, hi) := Ordered(a, b);
      assert {lo, hi} == {a, b} && LexLess(lo, hi);
    }
  }

  /** Two ids that normalise to the same value make no dyad. */
  lemma DegenerateDyadRejected(entityA: string, entityB: string)
    requires NormalizeEntityId(entityA).Success? && NormalizeEntityId(entityB).Success?
    requires NormalizeEntityId(entityA).value == NormalizeEntityId(entityB).value
    ensures ComputeDyadId(entityA, entityB) == Failure(DegenerateDyad)
  {
  }

  /** The dyad id does not depend on the order of the two entities. */
  lemma DyadIdSymmetric(entityA: string, entityB: string)
    requires ComputeDyadId(entityA, entityB).Success?
    ensures ComputeDyadId(entityB, entityA) == ComputeDyadId(entityA, entityB)
  {
    var a, b := NormalizeEntityId(entityA).value, NormalizeEntityId(entityB).value;
    LexLessTotal(a, b);
    if LexLess(a, b) {
      LexLessAsymmetric(a, b);
    } else {
      LexLessAsymmetric(b, a);
    }
  }
}
