/**
 * `get_client_ip`: the caller's address behind a proxy, preferring the first
 * `X-Forwarded-For` entry, then `X-Real-IP`, then the socket peer.
 *
 * Each header is None when absent; `clientHost` is None when the request has no client.
 */
module IpUtils {
  import opened Wrappers
  import opened Strings

  /** `xff.split(",")[0].strip()`: the first comma-separated entry, without blanks around it. */
  function FirstForwarded(xff: string): (ip: string)
    ensures ',' !in ip
    ensures forall c :: c in ip ==> c in xff
    ensures |ip| > 0 ==> !IsSpace(ip[0]) && !IsSpace(ip[|ip| - 1])
  {
    Strip(BeforeFirst(xff, ','))
  }

  /**
   * `get_client_ip`: a non-blank first `X-Forwarded-For` entry; else a
   * non-empty `X-Real-IP`, stripped (possibly to ""); else the client host,
   * or "unknown" when there is no client.
   */
  function GetClientIp(xff: Option<string>, xRealIp: Option<string>, clientHost: Option<string>): (ip: string)
    ensures Present(xff) && FirstForwarded(xff.value) != "" ==> ip == FirstForwarded(xff.value) && ',' !in ip
    ensures !(Present(xff) && FirstForwarded(xff.value) != "") && Present(xRealIp) ==> ip == Strip(xRealIp.value)
    ensures !(Present(xff) && FirstForwarded(xff.value) != "") && !Present(xRealIp) ==>
      ip == (if clientHost.Some? then clientHost.value else "unknown")
  {
    if Present(xff) && FirstForwarded(xff.value) != "" then FirstForwarded(xff.value)
    else if Present(xRealIp) then Strip(xRealIp.value)
    else if clientHost.Some? then clientHost.value
    else "unknown"
  }

  /** An address written as the first entry of `X-Forwarded-For` is read back unchanged. */
  lemma ForwardedAddressRoundTrip(addr: string, rest: string)
    requires addr != "" && ',' !in addr
    requires !IsSpace(addr[0]) && !IsSpace(addr[|addr| - 1])
    ensures GetClientIp(Some(addr + "," + rest), None, None) == addr
    ensures GetClientIp(Some(addr), None, None) == addr
  {
    BeforeFirstStopsAtSeparator(addr, rest, ',');
    assert BeforeFirst(addr + "," + rest, ',') == addr;
    BeforeFirstStopsAtSeparator(addr, "", ',');
    BeforeFirstWhole(addr, ',');
    StripUnchanged(addr);
  }

  /** `s.split(sep)[0]` of `a + sep + b` is `a` when `a` has no `sep`. */
  lemma {:induction false} BeforeFirstStopsAtSeparator(a: string, b: string, sep: char)
    requires sep !in a
    ensures BeforeFirst(a + [sep] + b, sep) == a
  {
    if |a| > 0 {
      assert (a + [sep] + b)[1..] == a[1..] + [sep] + b;
      BeforeFirstStopsAtSeparator(a[1..], b, sep);
    }
  }

  /** A string without `sep` is its own first part. */
  lemma {:induction false} BeforeFirstWhole(a: string, sep: char)
    requires sep !in a
    ensures BeforeFirst(a, sep) == a
  {
    if |a| > 0 {
      BeforeFirstWhole(a[1..], sep);
    }
  }
}
