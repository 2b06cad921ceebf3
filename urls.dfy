/** The URL strings the views build: the blob-storage image prefix, the
    provider logout URL and the post-login redirect target. */
module Urls {
  import opened Types

  const HttpsScheme := "https://"
  const BlobHostSuffix := ".blob.core.windows.net/"
  const LogoutPath := "/oauth2/v2.0/logout"
  const PostLogoutParam := "?post_logout_redirect_uri="

  /** The prefix under which uploaded post images are served. */
  function ImageSourceUrl(account: string, container: string): (url: string)
    ensures |url| == |HttpsScheme| + |account| + |BlobHostSuffix| + |container| + 1
    ensures url[..|HttpsScheme|] == HttpsScheme && url[|url| - 1] == '/'
    ensures url[|HttpsScheme|..|HttpsScheme| + |account|] == account
    ensures url[|HttpsScheme| + |account|..|HttpsScheme| + |account| + |BlobHostSuffix|] == BlobHostSuffix
    ensures url[|url| - 1 - |container|..|url| - 1] == container
  {
    HttpsScheme + account + BlobHostSuffix + container + "/"
  }

  /** Storage account names hold no dot, so the prefix determines both the
      account and the container. */
  lemma {:induction false} ImageSourceUrlInjective(a1: string, c1: string, a2: string, c2: string)
    requires '.' !in a1 && '.' !in a2
    requires ImageSourceUrl(a1, c1) == ImageSourceUrl(a2, c2)
    ensures a1 == a2 && c1 == c2
  {
    var url := ImageSourceUrl(a1, c1);
    var n := |HttpsScheme|;
    assert url == HttpsScheme + a1 + BlobHostSuffix + c1 + "/";
    assert url == HttpsScheme + a2 + BlobHostSuffix + c2 + "/";
    // the dot opening the host suffix follows each account, and neither account holds one
    assert url[n + |a1|] == '.' && url[n + |a2|] == '.';
    assert url[n..n + |a2|] == a2 && url[n..n + |a1|] == a1;
    assert |a1| == |a2|;
    assert a1 == url[n..n + |a1|] == a2;
    var m := n + |a1| + |BlobHostSuffix|;
    assert c1 == url[m..|url| - 1] == c2;
  }

  /** The provider's end-session URL that brings the browser back to the login page. */
  function ProviderLogoutUrl(authority: string, loginUrl: string): (url: string)
    ensures |url| == |authority| + |LogoutPath| + |PostLogoutParam| + |loginUrl|
    ensures url[..|authority|] == authority
    ensures url[|authority|..|authority| + |LogoutPath|] == LogoutPath
    ensures url[|authority| + |LogoutPath|..|url| - |loginUrl|] == PostLogoutParam
    ensures url[|url| - |loginUrl|..] == loginUrl
  {
    authority + LogoutPath + PostLogoutParam + loginUrl
  }

  /** For one authority, the logout URL determines where the provider sends the browser back. */
  lemma ProviderLogoutUrlInjective(authority: string, login1: string, login2: string)
    requires ProviderLogoutUrl(authority, login1) == ProviderLogoutUrl(authority, login2)
    ensures login1 == login2
  {
    var url := ProviderLogoutUrl(authority, login1);
    assert login1 == url[|url| - |login1|..] == login2;
  }

  /** Where a successful local login goes: the `next` argument when it is
      non-empty and names no host, otherwise home. */
  function PostLoginTarget(next: Option<string>, netloc: string -> string): (r: Response)
    ensures r.Redirect? <==> next.Some? && next.value != "" && netloc(next.value) == ""
    ensures r.Redirect? ==> next == Some(r.url) && netloc(r.url) == ""
    ensures !r.Redirect? ==> r == RedirectHome
  {
    if next.None? || next.value == "" || netloc(next.value) != "" then RedirectHome
    else Redirect(next.value)
  }
}
