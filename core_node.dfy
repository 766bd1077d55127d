/** The identity and hash-memoisation base shared by every data and action node. */
module Core {
  import opened Wrappers

  class NodeBase {
    /** The memoised content hash; `None` until computed. */
    var hash: Option<string>
    var name: Option<string>
    var uuid: string
    /** How many times `CalcHash` has run on this node. */
    ghost var calcCalls: nat

    /** A new node keeps the given name verbatim; a missing or empty `uuid`
        (both are falsy in Python) is replaced by `freshId`, the text of a
        newly generated UUID4, which is never empty. */
    constructor (name: Option<string>, uuid: Option<string>, freshId: string)
      requires freshId != ""
      ensures this.name == name
      ensures uuid.Some? && uuid.value != "" ==> this.uuid == uuid.value
      ensures uuid.None? || uuid.value == "" ==> this.uuid == freshId
      ensures this.uuid != ""
      ensures hash == None && calcCalls == 0
    {
      hash := None;
      this.name := name;
      this.uuid := if uuid.Some? && uuid.value != "" then uuid.value else freshId;
      calcCalls := 0;
    }

    /** The base class leaves the hash computation empty, so it yields `None`. */
    method CalcHash() returns (h: Option<string>)
      modifies this`calcCalls
      ensures h == None
      ensures calcCalls == old(calcCalls) + 1
    {
      h := None;
      calcCalls := calcCalls + 1;
    }

    /** Recomputes the hash exactly when nothing is cached or a recomputation
        is forced, stores it, and returns the cached value. */
    method GetHash(forceRecalc: bool) returns (h: Option<string>)
      modifies this`hash, this`calcCalls
      ensures old(hash).None? || forceRecalc ==> calcCalls == old(calcCalls) + 1 && hash == None
      ensures old(hash).Some? && !forceRecalc ==> calcCalls == old(calcCalls) && hash == old(hash)
      ensures h == hash
    {
      if hash.None? || forceRecalc {
        hash := CalcHash();
      }
      h := hash;
    }
  }

  /** With the base `CalcHash`, the cache of a node that starts empty (as every
      new node does) never fills: every `GetHash` recomputes. */
  method StubNeverMemoises(n: NodeBase) returns (first: Option<string>, second: Option<string>)
    requires n.hash == None
    modifies n`hash, n`calcCalls
    ensures first == None && second == None && n.hash == None
    ensures n.calcCalls == old(n.calcCalls) + 2
  {
    first := n.GetHash(false);
    second := n.GetHash(false);
  }
}
