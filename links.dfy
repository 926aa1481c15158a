/** Resolution of a raw hyperlink against the crawl's base URL. Only root-relative
    links (those starting with `/`) are resolved; everything else passes through. */
module Links {
  import opened Seqs

  /** `normalize_link(link, base_url)`. */
  function NormalizeLink(link: string, baseUrl: string): (full: string)
    ensures StartsWith(link, "/") ==> StartsWith(full, baseUrl)
  {
    if StartsWith(link, "/") then baseUrl + link else link
  }

  /** A root-relative link is resolved under the base URL and can be read back after it;
      any other link is left as it is. */
  lemma NormalizeLinkResolves(link: string, baseUrl: string)
    ensures var full := NormalizeLink(link, baseUrl);
            && (StartsWith(link, "/") ==> StartsWith(full, baseUrl) && full[|baseUrl|..] == link)
            && (!StartsWith(link, "/") ==> full == link)
  {
    if StartsWith(link, "/") {
      StartsWithConcat(baseUrl, link);
      assert (baseUrl + link)[|baseUrl|..] == link;
    }
  }

  /** The site-scope test of the crawl: after normalisation the link stays under `baseUrl`. */
  predicate OnSite(link: string, baseUrl: string)
  {
    StartsWith(NormalizeLink(link, baseUrl), baseUrl)
  }

  /** Every root-relative link is on-site; any other link is on-site exactly when it
      already starts with the base URL. */
  lemma OnSiteCases(link: string, baseUrl: string)
    ensures StartsWith(link, "/") ==> OnSite(link, baseUrl)
    ensures !StartsWith(link, "/") ==> (OnSite(link, baseUrl) <==> StartsWith(link, baseUrl))
  {
    NormalizeLinkResolves(link, baseUrl);
  }

  /** Normalising twice changes nothing as long as the base URL itself is not
      root-relative (true of every `scheme://host` base). */
  lemma NormalizeIdempotent(link: string, baseUrl: string)
    requires !StartsWith(baseUrl, "/")
    ensures NormalizeLink(NormalizeLink(link, baseUrl), baseUrl) == NormalizeLink(link, baseUrl)
  {
    if StartsWith(link, "/") {
      var full := baseUrl + link;
      if |baseUrl| == 0 {
        assert full == link;
      } else {
        assert full[..1] == baseUrl[..1];
      }
    }
  }

  /** With a root-relative base the normaliser is not idempotent: "/a" against base "/b"
      gives "/b/a", and normalising again gives "/b/b/a". */
  lemma NormalizeNotIdempotentForRootRelativeBase()
    ensures NormalizeLink(NormalizeLink("/a", "/b"), "/b") != NormalizeLink("/a", "/b")
  {
    assert NormalizeLink("/a", "/b") == "/b/a";
    assert NormalizeLink("/b/a", "/b") == "/b/b/a";
  }
}
