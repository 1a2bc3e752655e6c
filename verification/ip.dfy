/** The client address of a request, taken from proxy headers, and its
    placeholder geolocation. */
module Ip {
  import opened Common
  import opened Text

  /** Request headers by lower-case name; `get` of a missing name is null. */
  type Headers = map<string, string>

  function Header(headers: Headers, name: string): (v: Option<string>)
    ensures v.Some? <==> name in headers
    ensures v.Some? ==> v.value == headers[name]
  {
    if name in headers then Some(headers[name]) else None
  }

  const UNKNOWN_IP := "unknown"

  /** `getUserIp`: the first non-empty of `x-forwarded-for` (its first
      comma-separated entry, trimmed), `x-real-ip` and `cf-connecting-ip`,
      else `'unknown'`. */
  function GetUserIp(headers: Headers): (ip: string)
    ensures Present(Header(headers, "x-forwarded-for")) ==>
              ip == Trim(FirstField(headers["x-forwarded-for"], ','))
    ensures !Present(Header(headers, "x-forwarded-for")) && Present(Header(headers, "x-real-ip")) ==>
              ip == headers["x-real-ip"]
    ensures (!Present(Header(headers, "x-forwarded-for")) && !Present(Header(headers, "x-real-ip"))
             && Present(Header(headers, "cf-connecting-ip"))) ==> ip == headers["cf-connecting-ip"]
    ensures (!Present(Header(headers, "x-forwarded-for")) && !Present(Header(headers, "x-real-ip"))
             && !Present(Header(headers, "cf-connecting-ip"))) ==> ip == UNKNOWN_IP
  {
    var forwarded := Header(headers, "x-forwarded-for");
    var realIp := Header(headers, "x-real-ip");
    var cf := Header(headers, "cf-connecting-ip");
    if Present(forwarded) then Trim(FirstField(forwarded.value, ','))
    else if Present(realIp) then realIp.value
    else if Present(cf) then cf.value
    else UNKNOWN_IP
  }

  /** The forwarded chain wins over everything: changing or removing the
      other two headers does not change the answer. */
  lemma ForwardedWins(headers: Headers, other: Headers)
    requires Present(Header(headers, "x-forwarded-for"))
    requires Header(other, "x-forwarded-for") == Header(headers, "x-forwarded-for")
    ensures GetUserIp(other) == GetUserIp(headers)
  {
  }

  /** An empty header counts as absent: setting one to "" gives the same
      answer as leaving it out. */
  lemma EmptyHeaderIsAbsent(headers: Headers, name: string)
    requires name !in headers
    ensures GetUserIp(headers[name := ""]) == GetUserIp(headers)
  {
    var h := headers[name := ""];
    assert forall n :: n != name ==> Header(h, n) == Header(headers, n);
  }

  /** For a forwarded chain, the answer is the first hop without
      surrounding whitespace and never contains a comma. */
  lemma ForwardedFirstHop(headers: Headers)
    requires Present(Header(headers, "x-forwarded-for"))
    ensures ',' !in GetUserIp(headers)
    ensures StartsWith(headers["x-forwarded-for"], FirstField(headers["x-forwarded-for"], ','))
  {
    var first := FirstField(headers["x-forwarded-for"], ',');
    var t := Trim(first);
    var lead := LeadingSpaces(first);
    assert t == first[lead..lead + |t|];
    forall k | 0 <= k < |t| ensures t[k] != ',' {
      assert t[k] == first[lead + k];
    }
  }

  datatype Location = Location(province: string, country: string, city: string)

  const LOCAL_LOCATION := Location("北京", "中国", "北京")
  const UNKNOWN_LOCATION := Location("未知", "未知", "未知")

  /** The loopback and private addresses the lookup treats as local: the
      exact names, and the prefixes `192.168.`, `10.` and `172.16.`. */
  predicate IsLocal(ip: string)
    ensures StartsWith(ip, "10.") || StartsWith(ip, "192.168.") || StartsWith(ip, "172.16.") ==> IsLocal(ip)
    ensures IsLocal(ip) && !StartsWith(ip, "1") ==> ip == UNKNOWN_IP || ip == "::1" || ip == "::ffff:127.0.0.1"
  {
    || ip == UNKNOWN_IP || ip == "127.0.0.1" || ip == "::1" || ip == "::ffff:127.0.0.1"
    || StartsWith(ip, "192.168.") || StartsWith(ip, "10.") || StartsWith(ip, "172.16.")
  }

  /** `getIpAddress`: the default location for local addresses, unknown for
      everything else. */
  function GetIpAddress(ip: string): (loc: Location)
    ensures IsLocal(ip) <==> loc == LOCAL_LOCATION
    ensures !IsLocal(ip) <==> loc == UNKNOWN_LOCATION
    ensures loc.province != "" && loc.country != "" && loc.city != ""
  {
    if IsLocal(ip) then LOCAL_LOCATION else UNKNOWN_LOCATION
  }

  /** Private detection is exactly those prefixes: the rest of 172.16.0.0/12
      is not local, and neither is a bare `10` nor `192.168` without its dot. */
  lemma PrivateRangeIsNarrow(ip: string)
    ensures StartsWith(ip, "172.") && !StartsWith(ip, "172.16.") ==> GetIpAddress(ip) == UNKNOWN_LOCATION
    ensures StartsWith(ip, "10") && !StartsWith(ip, "10.") ==> GetIpAddress(ip) == UNKNOWN_LOCATION
    ensures GetIpAddress("172.17.0.1") == UNKNOWN_LOCATION
    ensures GetIpAddress("172.31.255.1") == UNKNOWN_LOCATION
    ensures GetIpAddress("100.1.2.3") == UNKNOWN_LOCATION
    ensures GetIpAddress("192.1680.1.1") == UNKNOWN_LOCATION
    ensures GetIpAddress("10.0.0.1") == LOCAL_LOCATION
    ensures GetIpAddress("172.16.9.9") == LOCAL_LOCATION
  {
    if StartsWith(ip, "172.") {
      assert ip[0] == '1' && ip[1] == '7' && ip[2] == '2';
      assert !StartsWith(ip, "10.") && !StartsWith(ip, "192.168.") && ip != "127.0.0.1";
    }
    if StartsWith(ip, "10") {
      assert ip[0] == '1' && ip[1] == '0';
      assert !StartsWith(ip, "172.16.") && !StartsWith(ip, "192.168.") && ip != "127.0.0.1";
    }
    assert !StartsWith("172.17.0.1", "172.16.") by { assert "172.17.0.1"[5] != "172.16."[5]; }
    assert !StartsWith("172.31.255.1", "172.16.") by { assert "172.31.255.1"[4] != "172.16."[4]; }
    assert !StartsWith("100.1.2.3", "10.") by { assert "100.1.2.3"[2] != "10."[2]; }
    assert !StartsWith("192.1680.1.1", "192.168.") by { assert "192.1680.1.1"[7] != "192.168."[7]; }
    assert !StartsWith("172.17.0.1", "10.") by { assert "172.17.0.1"[1] != "10."[1]; }
    assert !StartsWith("172.31.255.1", "10.") by { assert "172.31.255.1"[1] != "10."[1]; }
    assert !StartsWith("192.1680.1.1", "10.") by { assert "192.1680.1.1"[1] != "10."[1]; }
    assert !StartsWith("100.1.2.3", "192.168.") by { assert "100.1.2.3"[1] != "192.168."[1]; }
    assert !StartsWith("172.17.0.1", "192.168.") by { assert "172.17.0.1"[1] != "192.168."[1]; }
    assert !StartsWith("172.31.255.1", "192.168.") by { assert "172.31.255.1"[1] != "192.168."[1]; }
    assert !StartsWith("100.1.2.3", "172.16.") by { assert "100.1.2.3"[1] != "172.16."[1]; }
    assert !StartsWith("192.1680.1.1", "172.16.") by { assert "192.1680.1.1"[1] != "172.16."[1]; }
    assert StartsWith("10.0.0.1", "10.") by { assert "10.0.0.1"[..3] == "10."; }
    assert StartsWith("172.16.9.9", "172.16.") by { assert "172.16.9.9"[..7] == "172.16."; }
  }
}
