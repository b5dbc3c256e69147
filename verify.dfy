/** `handleVerify` (handlers/verify.js): find the signed tweet, recover its
    signer, and link the signer's address to the handle in `verified.json`.
    The search API, the signer recovery, the checksum encoding, the read of
    the file, the encoding of the document and the write of the file are inputs: values for what is
    fetched once, functions for what is called on computed arguments. */
module Verify {
  import opened Wrappers
  import opened Http
  import opened Tweets
  import opened TypedMessage
  import opened SybilList

  /** The search API's parsed answer. `data` is `None` when it is absent or
      otherwise falsy; an empty array is truthy in JavaScript, so `Some([])`
      goes on to the search for a marked tweet. */
  datatype SearchResponse = SearchResponse(data: Option<seq<Tweet>>)

  /** The contents API's answer for the file, with `content` decoded. */
  datatype FileInfo = FileInfo(sha: string, list: Document)

  /** The PUT that replaces the file, conditioned on `sha`. */
  datatype PutRequest = PutRequest(path: string, message: string, sha: string, content: Document)

  /** The accesses to the file, in the order they are made. */
  datatype StoreOp = Read(path: string) | Write(request: PutRequest)

  const FilePath: string := "/repos/cyberconnecthq/connect-list/contents/" + "verified.json"

  /** `init.headers`, shared by every response of the handler. */
  const InitHeaders: map<string, string> :=
    map["content-type" := "application/json", "Access-Control-Allow-Origin" := "*", "Vary" := "Origin"]

  const InvalidHandle: Response := Response(400, "Invalid handle", InitHeaders, Some("invalid handle"))
  const TweetNotFound: Response := Response(400, "Can not find the tweet", InitHeaders, None)
  const AddressMismatch: Response := Response(400, "Address doesn't match", InitHeaders, None)
  const UpdateFailed: Response := Response(400, "Error updating list.", InitHeaders, None)

  function Verified(handle: string): Response {
    Response(200, "Succesful verification", InitHeaders, Some(handle))
  }

  /** What the `catch` block answers for a thrown `e`. */
  function Thrown(e: string): Response {
    Response(400, "Error:" + e, InitHeaders, None)
  }

  /** The tweet `find` picks, when there is data to search. */
  function Matched(search: Result<SearchResponse>): (t: Option<Tweet>)
    ensures t.Some? ==> Marked(t.value)
  {
    if search.Ok? && search.value.data.Some? then Find(search.value.data.value) else None
  }

  /** The outcome of the checks made before the file is touched. */
  datatype Check = Rejected(response: Response) | Accepted(tweet: Tweet, signer: string)

  /** The checks of lines 54-114: data present, a marked tweet, a signer
      whose checksum address is that of `addr`. */
  function CheckProof(addr: string, search: Result<SearchResponse>,
                      recover: (TypedData, string) -> Result<string>,
                      checksum: string -> Result<string>): (c: Check)
    ensures c.Rejected? ==> c.response.status == 400 && c.response.headers == InitHeaders
    ensures search.Err? ==> c == Rejected(Thrown(search.error))
    ensures search == Ok(SearchResponse(None)) ==> c == Rejected(InvalidHandle)
    ensures search.Ok? && search.value.data.Some? && Matched(search).None? ==> c == Rejected(TweetNotFound)
    ensures c.Accepted? ==>
      && Matched(search) == Some(c.tweet)
      && recover(ProofMessage(), Signature(c.tweet.text)) == Ok(c.signer)
      && checksum(c.signer).Ok? && checksum(c.signer) == checksum(addr)
    ensures Matched(search).Some? ==>
      var r := recover(ProofMessage(), Signature(Matched(search).value.text));
      && (r.Ok? && checksum(r.value).Ok? && checksum(addr).Ok? ==>
            (c.Accepted? <==> checksum(r.value) == checksum(addr)))
      && (r.Ok? && checksum(r.value).Ok? && checksum(addr).Ok? && checksum(r.value) != checksum(addr) ==>
            c == Rejected(AddressMismatch))
      && (r.Err? ==> c == Rejected(Thrown(r.error)))
      && (r.Ok? && checksum(r.value).Err? ==> c == Rejected(Thrown(checksum(r.value).error)))
      && (r.Ok? && checksum(r.value).Ok? && checksum(addr).Err? ==> c == Rejected(Thrown(checksum(addr).error)))
  {
    match search
    case Err(e) => Rejected(Thrown(e))
    case Ok(SearchResponse(None)) => Rejected(InvalidHandle)
    case Ok(SearchResponse(Some(tweets))) =>
      match Find(tweets)
      case None => Rejected(TweetNotFound)
      case Some(t) =>
        match recover(ProofMessage(), Signature(t.text))
        case Err(e) => Rejected(Thrown(e))
        case Ok(signer) =>
          match checksum(signer)
          case Err(e) => Rejected(Thrown(e))
          case Ok(mine) =>
            match checksum(addr)
            case Err(e) => Rejected(Thrown(e))
            case Ok(claimed) =>
              if mine != claimed then Rejected(AddressMismatch) else Accepted(t, signer)
  }

  /** Tweets without a marker before the first marked one are skipped:
      an accepted proof is always that tweet's signature, whatever follows. */
  lemma CheckUsesFirstMarkedTweet(addr: string, pre: seq<Tweet>, t: Tweet, post: seq<Tweet>,
                                  recover: (TypedData, string) -> Result<string>,
                                  checksum: string -> Result<string>)
    requires forall k :: 0 <= k < |pre| ==> !Marked(pre[k])
    requires Marked(t)
    ensures Matched(Ok(SearchResponse(Some(pre + [t] + post)))) == Some(t)
    ensures var c := CheckProof(addr, Ok(SearchResponse(Some(pre + [t] + post))), recover, checksum);
      c.Accepted? ==> c.tweet == t && recover(ProofMessage(), Signature(t.text)) == Ok(c.signer)
  {
    FindSkipsUnmarked(pre, t, post);
  }

  /** The answer to the outcome of the PUT. */
  function UpdateResponse(update: Result<int>, handle: string): (r: Response)
    ensures r.status == 200 <==> update == Ok(200)
    ensures r.status == 200 ==> r.body == Some(handle)
    ensures r.status == 200 || r.status == 400
    ensures r.headers == InitHeaders
    ensures update == Ok(200) ==> r == Verified(handle)
    ensures update.Ok? && update.value != 200 ==> r == UpdateFailed
    ensures update.Err? ==> r == Thrown(update.error)
  {
    match update
    case Err(e) => Thrown(e)
    case Ok(status) => if status == 200 then Verified(handle) else UpdateFailed
  }

  /** The PUT that links the checked signer to `handle` in the file read:
      conditioned on the `sha` read, and changing no record but the signer's. */
  function LinkRequest(file: FileInfo, signer: string, tweet: Tweet, handle: string, now: int): (req: PutRequest)
    ensures req.path == FilePath && req.sha == file.sha
    ensures Lookup(req.content, signer) == Some(Entry(Some(TwitterProof(now, tweet.id, handle)), None))
    ensures forall a :: a != signer ==> Lookup(req.content, a) == Lookup(file.list, a)
  {
    PutRequest(FilePath, "Linking " + signer + " to handle: " + handle, file.sha,
               Link(file.list, signer, TwitterProof(now, tweet.id, handle)))
  }

  /** Lines 116-180 of `handleVerify`, once `signer` is checked: read the
      file, link `signer` to `handle` in it, encode it and write it back with
      the `sha` that was read. `encode` is `btoa(JSON.stringify(_))`, which
      throws on a character above U+00FF; it then answers `Error:` unwritten. */
  method UpdateList(handle: string, signer: string, tweet: Tweet, now: int,
              file: Result<FileInfo>, encode: Document -> Result<string>,
              put: PutRequest -> Result<int>)
    returns (resp: Response, ops: seq<StoreOp>)
    ensures file.Err? ==> resp == Thrown(file.error) && ops == [Read(FilePath)]
    ensures file.Ok? ==>
      var req := LinkRequest(file.value, signer, tweet, handle, now);
      && (encode(req.content).Err? ==> resp == Thrown(encode(req.content).error) && ops == [Read(FilePath)])
      && (encode(req.content).Ok? ==>
            ops == [Read(FilePath), Write(req)] && resp == UpdateResponse(put(req), handle))
  {
    ops := [Read(FilePath)];
    if file.Err? {
      resp := Thrown(file.error);
      return;
    }
    var sha := file.value.sha;
    var decodedSybilList := file.value.list;
    decodedSybilList := decodedSybilList[signer := Entry(Some(TwitterProof(now, tweet.id, handle)), None)];

    var encodedData := encode(decodedSybilList);
    if encodedData.Err? {
      resp := Thrown(encodedData.error);
      return;
    }
    var req := PutRequest(FilePath, "Linking " + signer + " to handle: " + handle, sha, decodedSybilList);
    ops := ops + [Write(req)];
    var update := put(req);
    if update.Err? {
      resp := Thrown(update.error);
    } else if update.value == 200 {
      resp := Verified(handle);
    } else {
      resp := UpdateFailed;
    }
  }

  /** `handleVerify` for the request `?handle=<handle>&addr=<addr>` at time
      `now`. `ops` are the accesses to the file it makes. */
  method HandleVerify(handle: string, addr: string, now: int,
                      search: Result<SearchResponse>,
                      recover: (TypedData, string) -> Result<string>,
                      checksum: string -> Result<string>,
                      file: Result<FileInfo>,
                      encode: Document -> Result<string>,
                      put: PutRequest -> Result<int>)
    returns (resp: Response, ops: seq<StoreOp>)
    ensures resp.status == 200 || resp.status == 400
    ensures resp.status == 200 ==> resp.body == Some(handle)
    ensures var c := CheckProof(addr, search, recover, checksum);
      c.Rejected? ==> resp == c.response && ops == []
    ensures var c := CheckProof(addr, search, recover, checksum);
      c.Accepted? && file.Err? ==> resp == Thrown(file.error) && ops == [Read(FilePath)]
    ensures var c := CheckProof(addr, search, recover, checksum);
      c.Accepted? && file.Ok? ==>
        var req := LinkRequest(file.value, c.signer, c.tweet, handle, now);
        && (encode(req.content).Err? ==> resp == Thrown(encode(req.content).error) && ops == [Read(FilePath)])
        && (encode(req.content).Ok? ==>
              ops == [Read(FilePath), Write(req)] && resp == UpdateResponse(put(req), handle))
  {
    ops := [];
    if search.Err? {
      resp := Thrown(search.error);
      return;
    }
    var twitterResponse := search.value;
    if twitterResponse.data.None? {
      resp := InvalidHandle;
      return;
    }
    var tweets := twitterResponse.data.value;
    var matched := Find(tweets);
    if matched.None? {
      resp := TweetNotFound;
      return;
    }
    var sig := Signature(matched.value.text);

    var recovered := recover(ProofMessage(), sig);
    if recovered.Err? {
      resp := Thrown(recovered.error);
      return;
    }
    var recoveredAddr := recovered.value;
    var mine := checksum(recoveredAddr);
    if mine.Err? {
      resp := Thrown(mine.error);
      return;
    }
    var claimed := checksum(addr);
    if claimed.Err? {
      resp := Thrown(claimed.error);
      return;
    }
    if mine.value != claimed.value {
      resp := AddressMismatch;
      return;
    }
    resp, ops := UpdateList(handle, recoveredAddr, matched.value, now, file, encode, put);
  }
}
