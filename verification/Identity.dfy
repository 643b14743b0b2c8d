/**
 Requests, fingerprints and snapshot keys.

 Every SHA-256 digest of a canonical JSON value is modelled by the value itself, wrapped in a
 constructor: two digests are equal exactly when the digested values are.
 */
module Identity {
  import opened Outcomes

  type SourceId = string
  type Timestamp = int

  datatype Strategy = Full | Limit | Where | WhereLimit | Hash | Bernoulli

  datatype Sampling = Sampling(
    strategy: Strategy,
    limit: Option<nat>,
    where: Option<string>,
    key: Option<string>,
    rate: Option<real>,
    seed: Option<int>)

  /** A cohort rule: capture the children whose `key` occurs in the parent's `parentKey`. */
  datatype Recipe = Recipe(select: string, parent: string, parentKey: string, key: string, maxKeys: nat)

  /** One extracted Arrow batch: `memory` is its Arrow size, `stored` the size of its Parquet file. */
  datatype Table = Table(schema: string, rows: nat, memory: nat, stored: nat, values: string)

  /** `connection_scope`: empty, the digest of the public connection fields, or of a cohort capture. */
  datatype Scope =
    | Unscoped
    | Connection(name: string, identity: string)
    | Derived(base: Scope, parent: SnapshotKey, recipe: Recipe)

  datatype Request = Request(
    source: SourceId,
    relation: string,
    sampling: Sampling,
    fidelity: string,
    projection: Option<seq<string>>,
    queryTag: Option<string>,
    scope: Scope)

  datatype Fingerprint = Fingerprint(provider: string, request: Request)

  datatype SnapshotKey = SnapshotKey(
    fingerprint: Fingerprint,
    schema: string,
    version: Option<string>,
    content: seq<Table>)

  datatype DatasetId = DatasetId(snapshots: map<SourceId, SnapshotKey>, scopes: map<SourceId, Scope>)

  /** The query tag, which names the invocation, is left out of the identity. */
  function RequestFingerprint(request: Request, provider: string): Fingerprint {
    Fingerprint(provider, request.(queryTag := None))
  }

  /** The requests ask for the same, whatever their query tags. */
  predicate SameRequest(a: Request, b: Request) {
    && a.source == b.source
    && a.relation == b.relation
    && a.sampling == b.sampling
    && a.fidelity == b.fidelity
    && a.projection == b.projection
    && a.scope == b.scope
  }

  /** Equal fingerprints mean the same provider and the same request, and nothing less. */
  lemma FingerprintsDistinguish(a: Request, provider: string, b: Request, other: string)
    ensures RequestFingerprint(a, provider) == RequestFingerprint(b, other)
            <==> && provider == other
                 && a.source == b.source
                 && a.relation == b.relation
                 && a.sampling == b.sampling
                 && a.fidelity == b.fidelity
                 && a.projection == b.projection
                 && a.scope == b.scope
  {
    var f, g := RequestFingerprint(a, provider), RequestFingerprint(b, other);
    if f == g {
      assert f.request == g.request;
    }
  }

  function Source(key: SnapshotKey): SourceId {
    key.fingerprint.request.source
  }

  function SumRows(content: seq<Table>): nat {
    if content == [] then 0 else SumRows(content[..|content| - 1]) + content[|content| - 1].rows
  }

  function SumStored(content: seq<Table>): nat {
    if content == [] then 0 else SumStored(content[..|content| - 1]) + content[|content| - 1].stored
  }
}
