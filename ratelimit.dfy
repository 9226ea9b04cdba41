/**
 * `get_real_ip`, the key of the per-address rate limiter: the first
 * `X-Forwarded-For` entry whenever that header is non-empty, else the client host.
 */
module RateLimit {
  import opened Wrappers
  import opened Strings
  import IpUtils

  /**
   * `get_real_ip`: a non-empty `X-Forwarded-For` decides, even when its first
   * entry is blank; `X-Real-IP` is never read; "unknown" when there is no
   * client or its host is empty.
   */
  function GetRealIp(xff: Option<string>, clientHost: Option<string>): (ip: string)
    ensures Present(xff) ==> ip == IpUtils.FirstForwarded(xff.value) && ',' !in ip
    ensures !Present(xff) && Present(clientHost) ==> ip == clientHost.value
    ensures !Present(xff) && !Present(clientHost) ==> ip == "unknown"
    ensures ip != "" || Present(xff)
  {
    if Present(xff) then IpUtils.FirstForwarded(xff.value)
    else if Present(clientHost) then clientHost.value
    else "unknown"
  }

  /**
   * The limiter key and the client address agree whenever the first
   * forwarded entry is non-blank, or there is no `X-Forwarded-For` and no
   * `X-Real-IP` and a non-empty client host.
   */
  lemma RateLimitKeyMatchesClientIp(xff: Option<string>, xRealIp: Option<string>, clientHost: Option<string>)
    requires (Present(xff) && IpUtils.FirstForwarded(xff.value) != "")
          || (!Present(xff) && !Present(xRealIp) && Present(clientHost))
    ensures GetRealIp(xff, clientHost) == IpUtils.GetClientIp(xff, xRealIp, clientHost)
  {
  }

  /**
   * The two differ on a forwarded header whose first entry is blank: the
   * limiter keys every such request on "", where the client address falls back.
   */
  lemma BlankForwardedEntryDiffers(rest: string, xRealIp: Option<string>, clientHost: Option<string>)
    requires ',' !in rest && rest != ""
    requires Present(xRealIp) && Strip(xRealIp.value) != ""
    ensures GetRealIp(Some(" ," + rest), clientHost) == ""
    ensures IpUtils.GetClientIp(Some(" ," + rest), xRealIp, clientHost) != ""
  {
    IpUtils.BeforeFirstStopsAtSeparator(" ", rest, ',');
    assert " ," + rest == " " + [','] + rest;
    assert Strip(" ") == "";
  }
}
