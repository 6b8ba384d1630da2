/**
 * Discovery of the public tunnel URL from the local tunnel agent's API, and the
 * bounded retry around it. The HTTP answer of the API is a parameter.
 */
module Ngrok {
  import opened Wrappers

  /**
   * The "proto" field of a tunnel: absent, present with a value that is not a
   * string (JSON null, say), or a string.
   */
  datatype Proto = Absent | NonString | Text(s: string)

  /**
   * One tunnel of the API answer. A missing and a null "public_url" both make
   * get_ngrok_url return None, so `None` stands for either.
   */
  datatype Tunnel = Tunnel(proto: Proto, publicUrl: Option<string>)

  /** A tunnel the scan passes over: it has a proto, and the proto is not "https". */
  predicate PassedOver(t: Tunnel) {
    t.proto != Absent && t.proto != Text("https")
  }

  /** The API answer: the request fails, or it yields JSON with or without a "tunnels" list. */
  datatype TunnelsReply = RequestFailed | TunnelsJson(tunnels: Option<seq<Tunnel>>)

  /** How the scan for an https tunnel ends: a tunnel without "proto" raises a KeyError. */
  datatype Scan = MissingProto | HttpsAt(index: nat) | NoHttps

  /** Scans `ts` from index `i` for the first tunnel whose proto is "https". */
  function ScanFrom(ts: seq<Tunnel>, i: nat): (r: Scan)
    requires i <= |ts|
    ensures r.HttpsAt? ==> i <= r.index < |ts| && ts[r.index].proto == Text("https")
    ensures r.HttpsAt? ==> forall k :: i <= k < r.index ==> PassedOver(ts[k])
    ensures r.NoHttps? <==> forall k :: i <= k < |ts| ==> PassedOver(ts[k])
    ensures r.MissingProto? ==>
      exists k :: i <= k < |ts| && ts[k].proto.Absent? && forall j :: i <= j < k ==> PassedOver(ts[j])
    decreases |ts| - i
  {
    if i == |ts| then NoHttps
    else if ts[i].proto.Absent? then MissingProto
    else if ts[i].proto == Text("https") then HttpsAt(i)
    else ScanFrom(ts, i + 1)
  }

  /** The URL get_ngrok_url returns for one API answer; every exception becomes None. */
  function NgrokUrl(reply: TunnelsReply): Option<string> {
    match reply
    case RequestFailed => None
    case TunnelsJson(None) => None
    case TunnelsJson(Some(ts)) =>
      match ScanFrom(ts, 0)
      case MissingProto => None
      case HttpsAt(i) => ts[i].publicUrl
      case NoHttps => if |ts| == 0 then None else ts[0].publicUrl
  }

  /** get_ngrok_url: the loop over the tunnels, then the fallback to the first one. */
  method GetNgrokUrl(reply: TunnelsReply) returns (url: Option<string>)
    ensures url == NgrokUrl(reply)
  {
    if reply.RequestFailed? || reply.tunnels.None? {
      return None;
    }
    var ts := reply.tunnels.value;
    var i := 0;
    while i < |ts|
      invariant 0 <= i <= |ts|
      invariant ScanFrom(ts, 0) == ScanFrom(ts, i)
    {
      if ts[i].proto.Absent? {
        return None;              // KeyError on 'proto'
      }
      if ts[i].proto == Text("https") {
        return ts[i].publicUrl;   // None when 'public_url' is missing
      }
      i := i + 1;
    }
    if |ts| == 0 {
      return None;                // IndexError on tunnels[0]
    }
    url := ts[0].publicUrl;
  }

  /** The first https tunnel wins, whatever comes after it. */
  lemma HttpsPreferred(ts: seq<Tunnel>, i: nat)
    requires i < |ts| && ts[i].proto == Text("https")
    requires forall k :: 0 <= k < i ==> PassedOver(ts[k])
    ensures NgrokUrl(TunnelsJson(Some(ts))) == ts[i].publicUrl
  {
    FirstHttpsFound(ts, 0, i);
  }

  lemma {:induction false} FirstHttpsFound(ts: seq<Tunnel>, from: nat, i: nat)
    requires from <= i < |ts| && ts[i].proto == Text("https")
    requires forall k :: from <= k < i ==> PassedOver(ts[k])
    ensures ScanFrom(ts, from) == HttpsAt(i)
    decreases i - from
  {
    if from < i {
      FirstHttpsFound(ts, from + 1, i);
    }
  }

  /** Without an https tunnel the first tunnel's URL is used; an empty list gives None. */
  lemma FallbackToFirst(ts: seq<Tunnel>)
    requires forall k :: 0 <= k < |ts| ==> PassedOver(ts[k])
    ensures NgrokUrl(TunnelsJson(Some(ts))) == if |ts| == 0 then None else ts[0].publicUrl
  {
  }

  /** A null proto is compared, found unequal to "https" and passed over, not a KeyError. */
  lemma NullProtoPassedOver(a: string, b: string)
    ensures NgrokUrl(TunnelsJson(Some([Tunnel(NonString, Some(a)), Tunnel(Text("https"), Some(b))]))) == Some(b)
  {
    HttpsPreferred([Tunnel(NonString, Some(a)), Tunnel(Text("https"), Some(b))], 1);
  }

  /** Python truthiness of the URL: present and non-empty. */
  predicate Truthy(url: Option<string>) {
    url.Some? && url.value != ""
  }

  /**
   * get_ngrok_url_with_retry: at most `retries` attempts, the k-th seeing the API
   * answer `attempt(k)`; the first truthy URL is returned, otherwise None.
   */
  method GetNgrokUrlWithRetry(retries: int, attempt: nat -> TunnelsReply) returns (url: Option<string>, attempts: nat)
    ensures attempts <= if retries < 0 then 0 else retries
    ensures forall k :: 0 <= k < attempts - 1 ==> !Truthy(NgrokUrl(attempt(k)))
    ensures url.Some? ==> attempts >= 1 && Truthy(url) && url == NgrokUrl(attempt(attempts - 1))
    ensures url.None? ==> attempts == (if retries < 0 then 0 else retries)
    ensures url.None? ==> forall k :: 0 <= k < attempts ==> !Truthy(NgrokUrl(attempt(k)))
  {
    attempts := 0;
    while attempts < retries
      invariant 0 <= attempts && (retries >= 0 ==> attempts <= retries)
      invariant retries < 0 ==> attempts == 0
      invariant forall k :: 0 <= k < attempts ==> !Truthy(NgrokUrl(attempt(k)))
    {
      var u := GetNgrokUrl(attempt(attempts));
      attempts := attempts + 1;
      if Truthy(u) {
        return u, attempts;
      }
    }
    url := None;
  }
}
