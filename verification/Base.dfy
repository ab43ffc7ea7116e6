/** Vocabulary shared by the client and the server: gRPC status codes and their
    classes, 64-bit counters, query identities, and small facts about sequences. */
module Base {

  datatype Option<+T> = None | Some(value: T)

  /** The gRPC status codes, `Ok` standing for a successful call. */
  datatype Code =
    | Ok | Cancelled | Unknown | InvalidArgument | DeadlineExceeded | NotFound
    | AlreadyExists | PermissionDenied | ResourceExhausted | FailedPrecondition
    | Aborted | OutOfRange | Unimplemented | Internal | Unavailable | DataLoss
    | Unauthenticated

  /** Codes after which the client drops its channel and retries. */
  predicate IsDisconnect(code: Code) {
    code.Unavailable? || code.Unknown? || code.Cancelled?
  }

  /** Codes that say that the server does not know the handle or the query. */
  predicate IsStale(code: Code) {
    code.NotFound? || code.PermissionDenied?
  }

  const U64: int := 0x1_0000_0000_0000_0000

  type ClientId = nat   // a random UUID
  type Handle = nat
  type QueryId = nat

  datatype QueryIdentity = QueryIdentity(handle: Handle, queryId: QueryId)

  // ---------- sequences ----------

  ghost predicate Increasing(s: seq<nat>) {
    forall i, j :: 0 <= i < j < |s| ==> s[i] < s[j]
  }

  ghost predicate NonDecreasing(s: seq<nat>) {
    forall i, j :: 0 <= i < j < |s| ==> s[i] <= s[j]
  }

  /** `s` with adjacent repeats merged. */
  function Merged(s: seq<nat>): seq<nat> {
    if |s| <= 1 then s
    else if s[|s| - 2] == s[|s| - 1] then Merged(s[..|s| - 1])
    else Merged(s[..|s| - 1]) + [s[|s| - 1]]
  }

  /** Merging keeps the last element, the set of elements and, on an ordered
      sequence, leaves a strictly increasing one. */
  lemma {:induction false} MergedFacts(s: seq<nat>)
    ensures |Merged(s)| <= |s|
    ensures s != [] ==> Merged(s) != [] && Merged(s)[|Merged(s)| - 1] == s[|s| - 1]
    ensures forall x :: x in Merged(s) <==> x in s
    ensures NonDecreasing(s) ==> Increasing(Merged(s))
  {
    if |s| > 1 {
      var t := s[..|s| - 1];
      MergedFacts(t);
      assert s == t + [s[|s| - 1]];
      assert t[|t| - 1] == s[|s| - 2];
      if NonDecreasing(s) {
        assert NonDecreasing(t);
        assert forall x :: x in Merged(t) ==> x <= s[|s| - 2] by {
          forall x | x in Merged(t) ensures x <= s[|s| - 2] { assert x in t; }
        }
      }
    }
  }

  /** One more element is a duplicate exactly when it repeats the last one. */
  lemma MergedAppend(s: seq<nat>, x: nat)
    ensures |Merged(s + [x])| == |Merged(s)| + (if s != [] && s[|s| - 1] == x then 0 else 1)
  {
    assert (s + [x])[..|s|] == s;
  }
}
