/**
 * ImageUrlHelper.cs: recognising image URLs served from tmdb.org and deciding, from the
 * plugin's IgnoreTmdbImages setting, whether such a URL must be dropped.
 */
module ImageUrl {
  import opened Wrappers
  import opened Text
  import opened Host

  const TmdbDomain: string := "tmdb.org"

  /** The domain has visible characters, so no blank string contains it. */
  lemma TmdbDomainNotInBlank(s: string)
    requires IsBlank(s)
    ensures !ContainsIgnoreCase(s, TmdbDomain)
  {
    assert IsBlank(ToLower(s)) by {
      forall i | 0 <= i < |s| ensures IsWhiteSpace(ToLower(s)[i]) {
        LowerKeepsWhiteSpace(s[i]);
      }
    }
    assert ToLower(TmdbDomain)[0] == 't';
    BlankContainsNoVisible(ToLower(s), ToLower(TmdbDomain));
  }

  /**
   * IsTmdbUrl: a URL is a TMDB URL exactly when it contains "tmdb.org" in any letter case;
   * the early exit for null or blank input never changes the answer.
   */
  function IsTmdbUrl(url: Option<string>): (r: bool)
    ensures IsNullOrWhiteSpace(url) ==> !r
    ensures r <==> url.Some? && ContainsIgnoreCase(url.value, TmdbDomain)
  {
    if IsNullOrWhiteSpace(url) then
      assert url.Some? ==> !ContainsIgnoreCase(url.value, TmdbDomain) by {
        if url.Some? {
          TmdbDomainNotInBlank(url.value);
        }
      }
      false
    else
      ContainsIgnoreCase(url.value, TmdbDomain)
  }

  /**
   * ShouldIgnoreTmdbImages: `Plugin.Instance?.Configuration?.IgnoreTmdbImages == true`.
   * A missing plugin or a missing configuration counts as "do not ignore".
   */
  function ShouldIgnoreTmdbImages(instance: Option<Plugin>): (r: bool)
    ensures r ==> instance.Some? && instance.value.configuration.Some?
    ensures instance.Some? && instance.value.configuration.Some? ==>
              r == instance.value.configuration.value.ignoreTmdbImages
  {
    instance.Some? && instance.value.configuration.Some?
    && instance.value.configuration.value.ignoreTmdbImages
  }

  /**
   * ShouldFilterUrl: a URL is dropped exactly when the setting asks to ignore TMDB images
   * and the URL is a TMDB URL; blank URLs and a switched-off setting never filter.
   */
  function ShouldFilterUrl(instance: Option<Plugin>, url: Option<string>): (r: bool)
    ensures IsNullOrWhiteSpace(url) ==> !r
    ensures !ShouldIgnoreTmdbImages(instance) ==> !r
    ensures r <==> ShouldIgnoreTmdbImages(instance) && IsTmdbUrl(url)
  {
    if IsNullOrWhiteSpace(url) then
      assert !IsTmdbUrl(url);
      false
    else ShouldIgnoreTmdbImages(instance) && IsTmdbUrl(url)
  }

  /** The shipped configuration (IgnoreTmdbImages defaults to true) filters every TMDB URL. */
  lemma DefaultConfigurationFiltersTmdb(url: string)
    requires ContainsIgnoreCase(url, TmdbDomain)
    ensures ShouldFilterUrl(Some(Plugin(Some(DefaultConfiguration()))), Some(url))
  {
  }
}
