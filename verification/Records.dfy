/** Canonical records: the engine emits them and the stores persist them. */
module Records {
  import opened Wrappers

  /** A metadata object: its JSON text, and its members `native_id` and `id` where they are strings. */
  datatype Metadata = Metadata(json: string, nativeId: Option<string>, id: Option<string>)

  datatype Record = Record(
    source: string, id: string, kind: string, url: string, title: Option<string>, text: Option<string>,
    author: Option<string>, createdAt: Option<string>, updatedAt: Option<string>, metadata: Metadata)

  /** Record ids are scoped by their source. */
  datatype Identity = Identity(source: string, id: string)

  function IdentityOf(r: Record): Identity { Identity(r.source, r.id) }

  function Identities(rs: seq<Record>): set<Identity> {
    set r | r in rs :: IdentityOf(r)
  }

  /** Records that share an identity are the same record. */
  predicate Consistent(rs: seq<Record>) {
    forall r, q | r in rs && q in rs :: IdentityOf(r) == IdentityOf(q) ==> r == q
  }

  ghost predicate DistinctIdentities(rs: seq<Record>) {
    forall i, j :: 0 <= i < j < |rs| ==> IdentityOf(rs[i]) != IdentityOf(rs[j])
  }

  lemma DistinctIsConsistent(rs: seq<Record>)
    requires DistinctIdentities(rs)
    ensures Consistent(rs)
  {
    forall r, q | r in rs && q in rs && IdentityOf(r) == IdentityOf(q)
      ensures r == q
    {
      var i :| 0 <= i < |rs| && rs[i] == r;
      var j :| 0 <= j < |rs| && rs[j] == q;
    }
  }
}
