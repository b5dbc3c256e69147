/** The shared list `verified.json`: a JSON object from address to the
    proofs recorded for it (handlers/verify.js decodes it into
    `decodedSybilList`). */
module SybilList {
  import opened Wrappers

  datatype TwitterProof = TwitterProof(timestamp: int, tweetID: string, handle: string)

  /** Written by the GitHub verifier, which is not part of this model; kept so
      that what a Twitter link does to it can be stated. */
  datatype GithubProof = GithubProof(timestamp: int, username: string, gistID: string, userID: string)

  /** The record of one address: one optional sub-record per kind of proof. */
  datatype Entry = Entry(twitter: Option<TwitterProof>, github: Option<GithubProof>)

  type Document = map<string, Entry>

  function Lookup(doc: Document, addr: string): Option<Entry> {
    if addr in doc then Some(doc[addr]) else None
  }

  /** `decodedSybilList[addr] = { twitter: proof }`: the whole record of
      `addr` is replaced, whatever it held before. */
  function Link(doc: Document, addr: string, proof: TwitterProof): (d: Document)
    ensures d.Keys == doc.Keys + {addr}
    ensures forall a :: Lookup(d, a) == if a == addr then Some(Entry(Some(proof), None)) else Lookup(doc, a)
  {
    doc[addr := Entry(Some(proof), None)]
  }

  /** A second link of the same address wins outright: there is no check
      that the address is already bound, not even to another handle. */
  lemma LinkLastWins(doc: Document, addr: string, p: TwitterProof, q: TwitterProof)
    ensures Link(Link(doc, addr, p), addr, q) == Link(doc, addr, q)
  {
  }

  /** Links of two different addresses do not interfere. */
  lemma LinkCommutes(doc: Document, a: string, p: TwitterProof, b: string, q: TwitterProof)
    requires a != b
    ensures Link(Link(doc, a, p), b, q) == Link(Link(doc, b, q), a, p)
  {
  }

  /** A GitHub proof recorded for the address is dropped, not merged. */
  lemma LinkDiscardsGithub(doc: Document, addr: string, proof: TwitterProof)
    ensures addr in Link(doc, addr, proof)
    ensures Link(doc, addr, proof)[addr].github == None
    ensures Link(doc, addr, proof)[addr].twitter == Some(proof)
  {
  }
}
