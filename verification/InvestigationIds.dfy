/**
 * The ids a model investigation goes by. Every id is computed from the content
 * fingerprint alone, which is what lets a restarted worker find its own traces.
 */
module InvestigationIds {
  import opened Text

  const MODEL_PREFIX := "dsf-model-"
  const WORKER_PREFIX := "dsf-worker-"

  predicate IsLowerHex(c: char) {
    '0' <= c <= '9' || 'a' <= c <= 'f'
  }

  /** What `dsf_investigation_key` returns: the prefix and a SHA-256 digest in lower-case hex. */
  predicate IsKey(k: string) {
    |k| == |MODEL_PREFIX| + 64 && MODEL_PREFIX <= k
    && forall i | |MODEL_PREFIX| <= i < |k| :: IsLowerHex(k[i])
  }

  function WorkerIdOf(k: string): string {
    WORKER_PREFIX + TrimStartMatches(k, MODEL_PREFIX)
  }

  /** Reads the fingerprint back from a derived worker id. */
  function KeyOf(w: string): string {
    MODEL_PREFIX + (if |w| >= |WORKER_PREFIX| then w[|WORKER_PREFIX|..] else "")
  }

  /** The prefix is stripped repeatedly, but a digest can never start with it again. */
  lemma WorkerIdHoldsDigest(k: string)
    requires IsKey(k)
    ensures WorkerIdOf(k) == WORKER_PREFIX + k[|MODEL_PREFIX|..]
    ensures k[..10] == "dsf-model-" && WorkerIdOf(k) == "dsf-worker-" + k[10..]
  {
    var rest := k[|MODEL_PREFIX|..];
    assert rest[1] == k[|MODEL_PREFIX| + 1];
    assert MODEL_PREFIX[1] == 's';
    assert rest[..|MODEL_PREFIX|][1] != MODEL_PREFIX[1];
    assert TrimStartMatches(k, MODEL_PREFIX) == TrimStartMatches(rest, MODEL_PREFIX) == rest;
  }

  lemma WorkerIdInvertible(k: string)
    requires IsKey(k)
    ensures KeyOf(WorkerIdOf(k)) == k && WorkerIdOf(k) != ""
  {
    WorkerIdHoldsDigest(k);
    assert k == MODEL_PREFIX + k[|MODEL_PREFIX|..];
  }

  lemma WorkerIdInjective(j: string, k: string)
    requires IsKey(j) && IsKey(k)
    ensures WorkerIdOf(j) == WorkerIdOf(k) <==> j == k
  {
    WorkerIdInvertible(j);
    WorkerIdInvertible(k);
  }
}
