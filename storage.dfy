/** The in-memory storage backend of `src/harp.ts`: content addressed by a
    simulated content id. */
module Storage {
  import opened Wrappers
  import opened Types

  /** The simulated content id: `bafymem` and the first 40 hex digits of the
      SHA-256 digest of the content. */
  function ContentId(hash: Hasher, content: string): (cid: string)
    ensures |cid| == 47 && cid[..7] == "bafymem" && cid[7..] == HexDigest(hash, content)[..40]
  {
    "bafymem" + HexDigest(hash, content)[..40]
  }

  /** `retrieve` on a store: a missing id and an empty text (which is falsy)
      are both reported as not found. */
  function LookupIn(contents: map<string, string>, cid: string): (r: Result<string, HarpError>)
    ensures r.Success? <==> cid in contents && contents[cid] != ""
    ensures r.Success? ==> r.value == contents[cid]
    ensures r.Failure? ==> r.error == NotFound(cid)
  {
    if cid in contents && contents[cid] != "" then Success(contents[cid]) else Failure(NotFound(cid))
  }

  /** The storage contract: what was stored under an id reads back, unless it
      was the empty text. */
  lemma RetrieveAfterStore(contents: map<string, string>, hash: Hasher, content: string)
    ensures var cid := ContentId(hash, content);
      LookupIn(contents[cid := content], cid) == if content == "" then Failure(NotFound(cid)) else Success(content)
  {
  }

  /** Storing under one id leaves every other id as it was. */
  lemma StoreKeepsOthers(contents: map<string, string>, cid: string, content: string, other: string)
    requires other != cid
    ensures LookupIn(contents[cid := content], other) == LookupIn(contents, other)
  {
  }

  /** The empty text is stored and reported as present, but cannot be read
      back. */
  lemma EmptyContentNotRetrievable(contents: map<string, string>, hash: Hasher)
    ensures var cid := ContentId(hash, "");
      && cid in contents[cid := ""]
      && LookupIn(contents[cid := ""], cid).Failure?
  {
  }

  /** `MemoryStorage`. The source names both the map field and the storing
      method `store`; here the field is `contents`. */
  class MemoryStorage {
    var contents: map<string, string>
    var pinned: set<string>
    const hash: Hasher

    constructor(hash: Hasher)
      ensures contents == map[] && pinned == {} && this.hash == hash
    {
      contents := map[];
      pinned := {};
      this.hash := hash;
    }

    /** `retrieve`, as a function of the current state. */
    function Lookup(cid: string): (r: Result<string, HarpError>)
      reads this
      ensures r == LookupIn(contents, cid)
    {
      LookupIn(contents, cid)
    }

    /** `store`: equal contents get equal ids. */
    method Store(content: string) returns (cid: string)
      modifies this
      ensures cid == ContentId(hash, content)
      ensures contents == old(contents)[cid := content] && pinned == old(pinned)
      ensures Lookup(cid) == if content == "" then Failure(NotFound(cid)) else Success(content)
    {
      cid := "bafymem" + HexDigest(hash, content)[..40];
      contents := contents[cid := content];
    }

    /** `retrieve` */
    method Retrieve(cid: string) returns (r: Result<string, HarpError>)
      ensures r.Success? <==> cid in contents && contents[cid] != ""
      ensures r.Success? ==> r.value == contents[cid]
      ensures r.Failure? ==> r == Failure(NotFound(cid))
    {
      if cid !in contents || contents[cid] == "" {
        return Failure(NotFound(cid));
      }
      return Success(contents[cid]);
    }

    /** `exists`: present, even with an empty text. */
    method Exists(cid: string) returns (b: bool)
      ensures b <==> cid in contents
    {
      b := cid in contents;
    }

    method Pin(cid: string)
      modifies this
      ensures pinned == old(pinned) + {cid} && contents == old(contents)
    {
      pinned := pinned + {cid};
    }

    method Unpin(cid: string)
      modifies this
      ensures pinned == old(pinned) - {cid} && contents == old(contents)
    {
      pinned := pinned - {cid};
    }
  }
}
