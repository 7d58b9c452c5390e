/** `updateSite(formData, site, key)`: the decision of which writes and domain
    registrations to issue for one edited site field, with the custom-domain
    branch in full, and the mapping of thrown errors to the error message the
    action returns.
 */
module SiteActions {
  import opened JsValues
  import opened Effects

  /** The parts of a site record the action reads. `customDomain` is `None`
      for SQL `NULL`. */
  datatype Site = Site(id: string, subdomain: string, customDomain: Option<string>)

  /** A value written into a site column: a string, or `NULL`. */
  datatype Column = TextColumn(s: string) | NullColumn

  /** The awaited side effects of `updateSite`. `StoreImage` stands for the
      blob upload, blur computation and column write of an image or logo. */
  datatype SiteEffect =
    | SetField(field: string, value: Column)
    | AddDomain(domain: string)
    | RemoveDomain(domain: string)
    | StoreImage(field: string)

  /** The effects to issue, or an error returned before any effect. */
  datatype Plan = Rejected(message: string) | Planned(effects: seq<SiteEffect>)

  /** What the action returns: an `{ error }` object, or the response of the
      last effect that assigned `response` (`None` stands for `undefined`). */
  datatype Reply = ErrorReply(message: string) | Response(from: Option<SiteEffect>)

  /** The effects issued and the reply. */
  datatype SiteUpdate = SiteUpdate(issued: seq<SiteEffect>, reply: Reply)

  const CustomDomainKey := "customDomain"
  const ReservedDomain := "vercel.pub"
  const ReservedDomainMessage := "Cannot use vercel.pub subdomain as your custom domain"
  const MissingBlobTokenMessage := "Missing BLOB_READ_WRITE_TOKEN token. Note: Vercel Blob is currently in beta – please fill out this form for access: https://tally.so/r/nPDMNd"

  /** The unregistration of the site's old custom domain when `value`
      replaces it: present when the old domain is non-empty and differs. */
  function Removal(site: Site, value: string): seq<SiteEffect> {
    if Truthy(site.customDomain) && site.customDomain.value != value then [RemoveDomain(site.customDomain.value)]
    else []
  }

  /** The custom-domain branch. `validDomain` is the domain regular
      expression's `test`, left uninterpreted. */
  function CustomDomainPlan(site: Site, value: string, validDomain: string -> bool): Plan {
    if Includes(value, ReservedDomain) then Rejected(ReservedDomainMessage)
    else
      var update :=
        if validDomain(value) then [SetField(CustomDomainKey, TextColumn(value)), AddDomain(value)]
        else if value == "" then [SetField(CustomDomainKey, NullColumn)]
        else [];
      Planned(update + Removal(site, value))
  }

  /** The effects for any key: the custom-domain branch, the image/logo
      branch (which needs a blob token), or a plain column write. */
  function UpdateSitePlan(site: Site, key: string, value: string, blobToken: bool, validDomain: string -> bool): Plan {
    if key == CustomDomainKey then CustomDomainPlan(site, value, validDomain)
    else if key == "image" || key == "logo" then
      if blobToken then Planned([StoreImage(key)]) else Rejected(MissingBlobTokenMessage)
    else Planned([SetField(key, TextColumn(value))])
  }

  /** The error message returned for an error thrown while updating `key`. */
  function SiteErrorMessage(key: string, error: ErrorValue): string {
    if error.code == Some(UniqueViolation) then "This " + key + " is already taken" else error.message
  }

  /** The last effect that assigns `response`: every effect but `AddDomain`. */
  function LastResponder(effects: seq<SiteEffect>): (r: Option<SiteEffect>)
    ensures r.Some? ==> r.value in effects && !r.value.AddDomain?
    ensures r.None? <==> forall j :: 0 <= j < |effects| ==> effects[j].AddDomain?
    ensures r.Some? ==> exists j :: 0 <= j < |effects| && effects[j] == r.value &&
                          forall l :: j < l < |effects| ==> effects[l].AddDomain?
    decreases |effects|
  {
    if effects == [] then None
    else
      var n := |effects| - 1;
      if !effects[n].AddDomain? then Some(effects[n])
      else
        var prefix := effects[..n];
        assert forall j :: 0 <= j < n ==> prefix[j] == effects[j];
        LastResponder(prefix)
  }

  /** The action: plan, then issue the planned effects until one throws.
      `fails(e)` is the error effect `e` throws, if any. */
  function UpdateSite(
    site: Site,
    key: string,
    value: string,
    blobToken: bool,
    validDomain: string -> bool,
    fails: SiteEffect -> Option<ErrorValue>
  ): (u: SiteUpdate)
    // an early error issues nothing
    ensures UpdateSitePlan(site, key, value, blobToken, validDomain).Rejected? ==>
              u == SiteUpdate([], ErrorReply(UpdateSitePlan(site, key, value, blobToken, validDomain).message))
    // otherwise a prefix of the plan is issued, and all of it when nothing throws
    ensures UpdateSitePlan(site, key, value, blobToken, validDomain).Planned? ==>
              var effects := UpdateSitePlan(site, key, value, blobToken, validDomain).effects;
              && u.issued <= effects
              && (u.reply.Response? <==> forall j :: 0 <= j < |effects| ==> fails(effects[j]).None?)
              && (u.reply.Response? ==> u.issued == effects && u.reply.from == LastResponder(effects))
              && (u.reply.ErrorReply? ==>
                    && |u.issued| > 0
                    && (forall j :: 0 <= j < |u.issued| - 1 ==> fails(u.issued[j]).None?)
                    && fails(u.issued[|u.issued| - 1]).Some?
                    && u.reply.message == SiteErrorMessage(key, fails(u.issued[|u.issued| - 1]).value))
  {
    match UpdateSitePlan(site, key, value, blobToken, validDomain)
    case Rejected(message) => SiteUpdate([], ErrorReply(message))
    case Planned(effects) =>
      var run := RunFrom(effects, fails, 0);
      var issued := Issued(effects, run);
      match run
      case Completed => SiteUpdate(issued, Response(LastResponder(effects)))
      case Aborted(_, error) => SiteUpdate(issued, ErrorReply(SiteErrorMessage(key, error)))
  }

  /** A custom domain containing `vercel.pub` is refused before anything is
      written, added or removed, whatever the site held before. */
  lemma ReservedDomainRefused(
    site: Site, value: string, blobToken: bool, validDomain: string -> bool,
    fails: SiteEffect -> Option<ErrorValue>)
    requires Includes(value, ReservedDomain)
    ensures UpdateSite(site, CustomDomainKey, value, blobToken, validDomain, fails) ==
              SiteUpdate([], ErrorReply(ReservedDomainMessage))
  {
  }

  /** A value the domain pattern accepts is written to `customDomain` and then
      registered, in that order, followed only by the removal of a replaced
      old domain; when nothing throws all of them happen. */
  lemma ValidDomainStoredThenAdded(
    site: Site, value: string, blobToken: bool, validDomain: string -> bool,
    fails: SiteEffect -> Option<ErrorValue>)
    requires !Includes(value, ReservedDomain) && validDomain(value)
    ensures UpdateSitePlan(site, CustomDomainKey, value, blobToken, validDomain) ==
              Planned([SetField(CustomDomainKey, TextColumn(value)), AddDomain(value)] + Removal(site, value))
    ensures var u := UpdateSite(site, CustomDomainKey, value, blobToken, validDomain, fails);
            u.reply.Response? ==>
              SetField(CustomDomainKey, TextColumn(value)) in u.issued && AddDomain(value) in u.issued
  {
  }

  /** An empty value (which the domain pattern does not accept) clears
      `customDomain` to `NULL`, registers nothing, and otherwise only removes
      a replaced old domain. */
  lemma EmptyValueClearsDomain(
    site: Site, blobToken: bool, validDomain: string -> bool)
    requires !validDomain("")
    ensures UpdateSitePlan(site, CustomDomainKey, "", blobToken, validDomain) ==
              Planned([SetField(CustomDomainKey, NullColumn)] + Removal(site, ""))
    ensures var effects := UpdateSitePlan(site, CustomDomainKey, "", blobToken, validDomain).effects;
            forall j :: 0 <= j < |effects| ==> !effects[j].AddDomain?
  {
    if Includes("", ReservedDomain) {
      IncludesNeedsLength("", ReservedDomain);
    }
  }

  /** Past the reserved-domain check, the old domain is unregistered exactly
      when the site had a non-empty custom domain different from the new
      value, and as the last planned effect. */
  lemma OldDomainRemovedIffReplaced(
    site: Site, value: string, blobToken: bool, validDomain: string -> bool, domain: string)
    requires !Includes(value, ReservedDomain)
    ensures var effects := UpdateSitePlan(site, CustomDomainKey, value, blobToken, validDomain).effects;
            RemoveDomain(domain) in effects <==>
              Truthy(site.customDomain) && site.customDomain.value != value && domain == site.customDomain.value
    ensures var effects := UpdateSitePlan(site, CustomDomainKey, value, blobToken, validDomain).effects;
            RemoveDomain(domain) in effects ==> effects[|effects| - 1] == RemoveDomain(domain)
  {
  }

  /** A non-empty value the domain pattern rejects writes nothing to the
      site record and registers nothing, yet a differing old domain is still
      unregistered: the stored `customDomain` then names a domain no longer
      registered. */
  lemma UnmatchedValueOnlyRemovesOldDomain(
    site: Site, value: string, blobToken: bool, validDomain: string -> bool)
    requires !Includes(value, ReservedDomain) && !validDomain(value) && value != ""
    ensures UpdateSitePlan(site, CustomDomainKey, value, blobToken, validDomain) == Planned(Removal(site, value))
    ensures forall f, c :: SetField(f, c) !in UpdateSitePlan(site, CustomDomainKey, value, blobToken, validDomain).effects
  {
  }

  /** A unique-constraint violation thrown by the first effect of a plan is
      reported as "This <key> is already taken", with nothing issued after it;
      any other error thrown there is reported by its own message. */
  lemma UniqueViolationReported(
    site: Site, key: string, value: string, blobToken: bool, validDomain: string -> bool,
    fails: SiteEffect -> Option<ErrorValue>)
    requires UpdateSitePlan(site, key, value, blobToken, validDomain).Planned?
    requires var effects := UpdateSitePlan(site, key, value, blobToken, validDomain).effects;
             |effects| > 0 && fails(effects[0]).Some?
    ensures var u := UpdateSite(site, key, value, blobToken, validDomain, fails);
            var error := fails(UpdateSitePlan(site, key, value, blobToken, validDomain).effects[0]).value;
            && |u.issued| == 1
            && (error.code == Some(UniqueViolation) ==> u.reply == ErrorReply("This " + key + " is already taken"))
            && (error.code != Some(UniqueViolation) ==> u.reply == ErrorReply(error.message))
  {
  }
}
