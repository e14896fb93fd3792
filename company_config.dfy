/**
 * Per-company settings of the Pages Functions API
 * (functions/api/lib/companyConfig.ts): the company id check and the CORS
 * origin checks over a company's configured origins. Loading the registry
 * and the configurations over the network is not modelled.
 */
module CompanyConfig {
  import opened Common
  import Validation

  /** The part of a company configuration the origin checks read. */
  datatype Config = Config(id: string, allowedOrigins: seq<string>)

  /** `[a-z0-9-]`. */
  predicate IsCompanyIdChar(c: char)
  {
    IsLowerLetter(c) || IsDigit(c) || c == '-'
  }

  /** `isValidCompanyId(companyId)`: `/^[a-z0-9-]{2,50}$/`. */
  predicate IsValidCompanyId(companyId: string)
  {
    2 <= |companyId| <= 50 && forall i :: 0 <= i < |companyId| ==> IsCompanyIdChar(companyId[i])
  }

  /** Every id accepted here passes the request validator of the Next.js API unchanged. */
  lemma ValidIdsPassRequestValidation(companyId: string)
    requires IsValidCompanyId(companyId)
    ensures Validation.ValidateCompanyId(Str(companyId)) == Ok(companyId)
  {
    assert Validation.AllIdChars(companyId);
    assert ToLower(companyId) == companyId;
  }

  /** The request validator is more lenient: it also takes upper case and `_`. */
  lemma RequestValidationIsWider()
    ensures !IsValidCompanyId("Ab_1") && Validation.ValidateCompanyId(Str("Ab_1")) == Ok("ab_1")
  {
    assert !IsCompanyIdChar("Ab_1"[0]);
    assert Validation.AllIdChars("Ab_1") by {
      forall i | 0 <= i < 4 ensures Validation.IsIdChar("Ab_1"[i]) { }
    }
    assert ToLower("Ab_1") == "ab_1";
  }

  const PagesSuffix := ".pages.dev"
  const ProjectDomain := "chatbot-service-multi-tenant.pages.dev"

  /** Some configured entry is a Pages wildcard. */
  predicate HasPagesWildcard(allowed: seq<string>)
  {
    exists i :: 0 <= i < |allowed| && (allowed[i] == "*.pages.dev" || allowed[i] == "https://*.pages.dev")
  }

  /** Some configured entry mentions the project's own Pages domain. */
  predicate HasProjectDomain(allowed: seq<string>)
  {
    exists i :: 0 <= i < |allowed| && Contains(allowed[i], ProjectDomain)
  }

  /**
   * `isOriginAllowed(companyConfig, origin)`: exact membership, or, for an
   * origin mentioning `.pages.dev`, a Pages wildcard or the project domain
   * in the list or in the origin.
   */
  function IsOriginAllowed(config: Config, origin: Option<string>): (r: bool)
    ensures origin.None? || origin.value == "" ==> !r
    ensures origin.Some? && origin.value != "" && origin.value in config.allowedOrigins ==> r
    ensures r && origin.Some? && origin.value !in config.allowedOrigins ==>
      Contains(origin.value, PagesSuffix)
      && (HasPagesWildcard(config.allowedOrigins) || HasProjectDomain(config.allowedOrigins)
          || Contains(origin.value, ProjectDomain))
    ensures (origin.Some? && origin.value != "" && Contains(origin.value, PagesSuffix)
             && (HasPagesWildcard(config.allowedOrigins) || HasProjectDomain(config.allowedOrigins)
                 || Contains(origin.value, ProjectDomain))) ==> r
  {
    if origin.None? || origin.value == "" then false
    else if origin.value in config.allowedOrigins then true
    else if Contains(origin.value, PagesSuffix) then
      HasPagesWildcard(config.allowedOrigins) || HasProjectDomain(config.allowedOrigins)
      || Contains(origin.value, ProjectDomain)
    else false
  }

  /** Adding configured origins never revokes an allowed one. */
  lemma AllowedIsMonotone(config: Config, more: seq<string>, origin: Option<string>)
    requires IsOriginAllowed(config, origin)
    ensures IsOriginAllowed(Config(config.id, config.allowedOrigins + more), origin)
  {
    var all := config.allowedOrigins + more;
    var o := origin.value;
    if o !in config.allowedOrigins {
      if HasPagesWildcard(config.allowedOrigins) {
        var i :| 0 <= i < |config.allowedOrigins| && (config.allowedOrigins[i] == "*.pages.dev" || config.allowedOrigins[i] == "https://*.pages.dev");
        assert all[i] == config.allowedOrigins[i];
      } else if HasProjectDomain(config.allowedOrigins) {
        var i :| 0 <= i < |config.allowedOrigins| && Contains(config.allowedOrigins[i], ProjectDomain);
        assert all[i] == config.allowedOrigins[i];
      }
    } else {
      assert o in all;
    }
  }

  /**
   * The project-domain test is a substring test: with nothing configured,
   * any origin that mentions the project's domain anywhere, such as
   * `https://chatbot-service-multi-tenant.pages.dev.example.com`, is let in.
   */
  lemma ProjectDomainIsSubstringTest(id: string, before: string, after: string)
    ensures IsOriginAllowed(Config(id, []), Some(before + ProjectDomain + after))
  {
    var o := before + ProjectDomain + after;
    assert ProjectDomain == "chatbot-service-multi-tenant" + PagesSuffix;
    assert o[|before|..][..|ProjectDomain|] == ProjectDomain;
    assert IsPrefix(ProjectDomain, o[|before|..]);
    assert o[|before| + 28..][..|PagesSuffix|] == PagesSuffix;
    assert IsPrefix(PagesSuffix, o[|before| + 28..]);
  }

  /**
   * `getAllowedOrigin(companyConfig, requestOrigin)`: the request origin when
   * allowed, else the first configured origin (undefined for an empty list).
   */
  function GetAllowedOrigin(config: Config, requestOrigin: Option<string>): (r: Option<string>)
    ensures IsOriginAllowed(config, requestOrigin) ==> r == requestOrigin
    ensures !IsOriginAllowed(config, requestOrigin) && config.allowedOrigins != [] ==> r == Some(config.allowedOrigins[0])
    ensures !IsOriginAllowed(config, requestOrigin) && config.allowedOrigins == [] ==> r == None
  {
    if requestOrigin.Some? && requestOrigin.value != "" && IsOriginAllowed(config, requestOrigin) then requestOrigin
    else if config.allowedOrigins != [] then Some(config.allowedOrigins[0])
    else None
  }

  /** A non-empty CORS origin answered is always one the check allows. */
  lemma AnsweredOriginIsAllowed(config: Config, requestOrigin: Option<string>)
    ensures var r := GetAllowedOrigin(config, requestOrigin);
      r.Some? && r.value != "" ==> IsOriginAllowed(config, r)
  {
    var r := GetAllowedOrigin(config, requestOrigin);
    if r.Some? && !IsOriginAllowed(config, requestOrigin) {
      assert r.value == config.allowedOrigins[0];
    }
  }
}
