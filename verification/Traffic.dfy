/** Parsed network traffic as the collectors see it. */
module Traffic {

  datatype Option<+T> = None | Some(value: T)

  /** Stream and sequence number: shared by a request and its response. */
  datatype Key = Key(streamId: string, number: int)

  datatype Url = Url(host: string, path: string)

  datatype Request = Request(host: string, url: Option<Url>)

  /** `Other` stands for TCP, TLS and undecoded content; its label is the connection ID that
      sampling hashes, or "" where there is none. */
  datatype Content = HttpRequest(key: Key, request: Request) | HttpResponse(key: Key) | Other(connection: string)

  datatype Packet = Packet(content: Content, observed: int)

  ghost predicate IsRequest(t: Packet, k: Key) { t.content.HttpRequest? && t.content.key == k }

  ghost predicate IsResponse(t: Packet, k: Key) { t.content.HttpResponse? && t.content.key == k }

  ghost function Requests(ts: seq<Packet>, k: Key): nat {
    if ts == [] then 0
    else Requests(ts[..|ts| - 1], k) + if IsRequest(ts[|ts| - 1], k) then 1 else 0
  }

  ghost function Responses(ts: seq<Packet>, k: Key): nat {
    if ts == [] then 0
    else Responses(ts[..|ts| - 1], k) + if IsResponse(ts[|ts| - 1], k) then 1 else 0
  }

  lemma CountAppend(ts: seq<Packet>, t: Packet, k: Key)
    ensures Requests(ts + [t], k) == Requests(ts, k) + if IsRequest(t, k) then 1 else 0
    ensures Responses(ts + [t], k) == Responses(ts, k) + if IsResponse(t, k) then 1 else 0
  {
    assert (ts + [t])[..|ts|] == ts;
  }

  /** A positive count has a witness. */
  lemma {:induction false} RequestExists(ts: seq<Packet>, k: Key)
    requires Requests(ts, k) > 0
    ensures exists i :: 0 <= i < |ts| && IsRequest(ts[i], k)
  {
    var n := |ts| - 1;
    if IsRequest(ts[n], k) {
    } else {
      RequestExists(ts[..n], k);
      var i :| 0 <= i < n && IsRequest(ts[..n][i], k);
      assert IsRequest(ts[i], k);
    }
  }
}
