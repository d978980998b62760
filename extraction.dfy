/** What the three extractors make of the page, and how the scraper merges their results
    into one profile data object. The in-page DOM queries and `JSON.parse` are not modelled:
    their results arrive as parsed JSON values and as an `HtmlPage` record. */
module Extraction {
  import opened Wrappers
  import opened Js
  import opened FollowersParser
  import opened FollowerRegex

  /** The profile data object the extractors return and the merge updates. A field the
      object does not have reads as `undefined`. */
  datatype Profile = Profile(fullName: JsValue, bio: JsValue, profilePic: JsValue,
                             isPrivate: JsValue, isVerified: JsValue, followers: JsValue)

  /** `{}`: an object with none of the six fields. */
  const EmptyObject: Profile := Profile(Undefined, Undefined, Undefined, Undefined, Undefined, Undefined)

  /** `v || d` always gives a truthy value or the default `d`. */
  predicate DefaultsTo(v: JsValue, d: JsValue) {
    Truthy(v) || v == d
  }

  // ---------------------------------------------------------------------------
  // window._sharedData

  /** The links of the chain `sharedData.entry_data.ProfilePage[0].graphql.user`, in order. */
  function ChainLinks(sharedData: JsValue): (links: seq<JsValue>)
    ensures |links| == 6 && links[0] == sharedData
  {
    var entry := Get(sharedData, "entry_data");
    var pages := Get(entry, "ProfilePage");
    var page := First(pages);
    var graphql := Get(page, "graphql");
    [sharedData, entry, pages, page, graphql, Get(graphql, "user")]
  }

  /** The last link of the chain, `graphql.user`. */
  function ChainEnd(sharedData: JsValue): JsValue {
    ChainLinks(sharedData)[5]
  }

  /** Every link of the chain is truthy. */
  predicate ChainComplete(sharedData: JsValue) {
    var links := ChainLinks(sharedData);
    Truthy(links[0]) && Truthy(links[1]) && Truthy(links[2]) && Truthy(links[3]) && Truthy(links[4]) && Truthy(links[5])
  }

  /** `sharedData.entry_data.ProfilePage[0].graphql.user`, when every link of that chain is
      truthy; `None` when the chain breaks anywhere. */
  function SharedUser(sharedData: JsValue): (r: Option<JsValue>)
    ensures r.Some? <==> ChainComplete(sharedData)
    ensures r.Some? ==> r.value == ChainEnd(sharedData) && Truthy(r.value)
  {
    if !Truthy(sharedData) then None
    else
      var entry := Get(sharedData, "entry_data");
      if !Truthy(entry) then None
      else
        var pages := Get(entry, "ProfilePage");
        if !Truthy(pages) then None
        else
          var page := First(pages);
          if !Truthy(page) then None
          else
            var graphql := Get(page, "graphql");
            if !Truthy(graphql) then None
            else
              var user := Get(graphql, "user");
              if Truthy(user) then Some(user) else None
  }

  /** `user.edge_followed_by?.count`. */
  function FollowedByCount(user: JsValue): JsValue {
    var edge := Get(user, "edge_followed_by");
    if edge.Undefined? || edge.Null? then Undefined else Get(edge, "count")
  }

  /** The profile read from the `_sharedData` user object, or null when there is none.
      Text fields default to '', flags to false and the count to 0. */
  function ExtractFromSharedData(sharedData: JsValue): (r: Option<Profile>)
    ensures r.Some? <==> SharedUser(sharedData).Some?
    ensures r.Some? ==> var user := SharedUser(sharedData).value;
      && r.value.fullName == Or(Get(user, "full_name"), Str(""))
      && r.value.bio == Or(Get(user, "biography"), Str(""))
      && r.value.isPrivate == Or(Get(user, "is_private"), Bool(false))
      && r.value.isVerified == Or(Get(user, "is_verified"), Bool(false))
      && r.value.followers == Or(FollowedByCount(user), Num(0))
    ensures r.Some? ==> && DefaultsTo(r.value.fullName, Str("")) && DefaultsTo(r.value.bio, Str(""))
                        && DefaultsTo(r.value.profilePic, Str(""))
                        && DefaultsTo(r.value.isPrivate, Bool(false)) && DefaultsTo(r.value.isVerified, Bool(false))
                        && DefaultsTo(r.value.followers, Num(0))
  {
    match SharedUser(sharedData)
    case None => None
    case Some(user) =>
      Some(Profile(
        fullName := Or(Get(user, "full_name"), Str("")),
        bio := Or(Get(user, "biography"), Str("")),
        profilePic := Or(Get(user, "profile_pic_url_hd"), Or(Get(user, "profile_pic_url"), Str(""))),
        isPrivate := Or(Get(user, "is_private"), Bool(false)),
        isVerified := Or(Get(user, "is_verified"), Bool(false)),
        followers := Or(FollowedByCount(user), Num(0))))
  }

  /** A user object found with no usable follower count yields the count 0, so the merge
      goes on to consult JSON-LD. */
  lemma MissingCountIsZero(sharedData: JsValue)
    requires SharedUser(sharedData).Some? && !Truthy(FollowedByCount(SharedUser(sharedData).value))
    ensures ExtractFromSharedData(sharedData).Some?
    ensures ExtractFromSharedData(sharedData).value.followers == Num(0)
    ensures NeedsFallback(ExtractFromSharedData(sharedData))
  {
  }

  /** The high-resolution picture is preferred, then the plain one, then ''. */
  lemma SharedDataPicture(sharedData: JsValue)
    requires SharedUser(sharedData).Some?
    ensures var user := SharedUser(sharedData).value;
      var pic := ExtractFromSharedData(sharedData).value.profilePic;
      && (Truthy(Get(user, "profile_pic_url_hd")) ==> pic == Get(user, "profile_pic_url_hd"))
      && (!Truthy(Get(user, "profile_pic_url_hd")) && Truthy(Get(user, "profile_pic_url")) ==> pic == Get(user, "profile_pic_url"))
      && (!Truthy(Get(user, "profile_pic_url_hd")) && !Truthy(Get(user, "profile_pic_url")) ==> pic == Str(""))
  {
  }

  // ---------------------------------------------------------------------------
  // application/ld+json

  /** `jsonLd.description || ''`. */
  function Description(jsonLd: JsValue): JsValue {
    Or(Get(jsonLd, "description"), Str(""))
  }

  /** The profile read from the JSON-LD record, or null when there is no record. A
      description that is not a string makes `match` throw, and the extractor then returns
      null as well. */
  function ExtractFromJsonLd(jsonLd: JsValue): (r: Option<Profile>)
    ensures r.Some? <==> Truthy(jsonLd) && Description(jsonLd).Str?
    ensures r.Some? ==> && r.value.bio == Description(jsonLd)
                        && r.value.isPrivate == Bool(false)
                        && r.value.isVerified == Bool(Includes(Description(jsonLd).s, "Verified"))
                        && DefaultsTo(r.value.fullName, Str("")) && DefaultsTo(r.value.profilePic, Str(""))
    ensures r.Some? ==>
      && r.value.fullName == Or(Get(jsonLd, "name"), Or(Get(jsonLd, "alternateName"), Str("")))
      && r.value.profilePic == Or(Get(jsonLd, "image"), Str(""))
    ensures r.Some? ==> var found := FindFollowerToken(Description(jsonLd).s, JsonLdKeyword);
      && (found.None? ==> r.value.followers == Null)
      && (found.Some? ==> r.value.followers == Str(found.value.capture))
  {
    if !Truthy(jsonLd) then None
    else
      var description := Description(jsonLd);
      if !description.Str? then None
      else
        var found := FindFollowerToken(description.s, JsonLdKeyword);
        Some(Profile(
          fullName := Or(Get(jsonLd, "name"), Or(Get(jsonLd, "alternateName"), Str(""))),
          bio := Or(description, Str("")),
          profilePic := Or(Get(jsonLd, "image"), Str("")),
          isPrivate := Bool(false),
          isVerified := Bool(Includes(description.s, "Verified")),
          followers := if found.Some? then Str(found.value.capture) else Null))
  }

  /** A count taken from the JSON-LD description is the capture of the leftmost match of
      the pattern there: it has token shape, it is followed by optional whitespace and
      "follower", and no earlier position matches. */
  lemma JsonLdFollowers(jsonLd: JsValue) returns (start: nat)
    requires ExtractFromJsonLd(jsonLd).Some? && ExtractFromJsonLd(jsonLd).value.followers.Str?
    ensures var d := Description(jsonLd).s;
      var c := ExtractFromJsonLd(jsonLd).value.followers.s;
      && start <= |d| && MatchAt(d, start, JsonLdKeyword) == Some(c)
      && (forall q :: 0 <= q < start ==> MatchAt(d, q, JsonLdKeyword).None?)
  {
    var d := Description(jsonLd).s;
    FindFollowerTokenLeftmost(d, JsonLdKeyword);
    start := FindFollowerToken(d, JsonLdKeyword).value.start;
  }

  // ---------------------------------------------------------------------------
  // Rendered HTML

  /** What the HTML extractor reads from the page. */
  datatype HtmlPage = HtmlPage(
    pictureSrc: Option<string>,        // `src` of the first profile-picture image, if any
    nameText: Option<string>,          // text of the first h2, h1 or span[dir="auto"], if any
    bioText: Option<string>,           // text of the first span[dir="auto"], if any
    verifiedBadges: nat,               // number of elements labelled "Verified"
    metaContents: seq<Option<string>>, // `content` of each og:description meta, in order
    bodyText: string)                  // `document.body.innerText || ''`

  /** `meta.getAttribute('content') || ''`. */
  function MetaContent(m: Option<string>): string {
    m.GetOr("")
  }

  /** The capture found in the first og:description content that matches. */
  function MetaFollowers(metas: seq<Option<string>>): (r: Option<string>)
    ensures r.Some? ==> r.value != ""
  {
    if metas == [] then None
    else
      match FindFollowerToken(MetaContent(metas[0]), HtmlKeyword)
      case Some(m) => Some(m.capture)
      case None => MetaFollowers(metas[1..])
  }

  /** The followers the HTML extractor reports: a meta capture, else a capture in the
      page text, else null. */
  function PageFollowers(page: HtmlPage): (r: JsValue)
    ensures r == Null || (r.Str? && r.s != "")
  {
    match MetaFollowers(page.metaContents)
    case Some(c) => Str(c)
    case None =>
      match FindFollowerToken(page.bodyText, HtmlKeyword)
      case Some(m) => Str(m.capture)
      case None => Null
  }

  /** The page text shows one of the private-account notices. */
  predicate ShowsPrivate(bodyText: string) {
    Includes(bodyText, "This Account is Private") || Includes(bodyText, "private account")
  }

  /** The object the HTML extractor returns for `page`. */
  function HtmlProfile(page: HtmlPage): (r: Profile)
    ensures r.fullName.Str? && r.bio.Str? && r.profilePic.Str? && r.isPrivate.Bool? && r.isVerified.Bool?
    ensures r.followers == Null || (r.followers.Str? && r.followers.s != "")
    ensures Truthy(r.isVerified) <==> page.verifiedBadges > 0
  {
    Profile(
      fullName := Str(if page.nameText.Some? then Trim(page.nameText.value) else ""),
      bio := Str(if page.bioText.Some? && page.bioText.value != "" then Trim(page.bioText.value) else ""),
      profilePic := Str(page.pictureSrc.GetOr("")),
      isPrivate := Bool(ShowsPrivate(page.bodyText)),
      isVerified := Bool(page.verifiedBadges > 0),
      followers := PageFollowers(page))
  }

  /** The loop over the og:description metas: the capture of the first one that matches,
      after which the loop stops. */
  method FirstMetaCapture(metas: seq<Option<string>>) returns (found: Option<string>)
    ensures found == MetaFollowers(metas)
  {
    found := None;
    var i := 0;
    while i < |metas|
      invariant 0 <= i <= |metas|
      invariant MetaFollowers(metas) == MetaFollowers(metas[i..])
    {
      assert metas[i..][1..] == metas[i + 1..];
      var m := FindFollowerToken(MetaContent(metas[i]), HtmlKeyword);
      if m.Some? {
        found := Some(m.value.capture);
        break;
      }
      i := i + 1;
    }
  }

  /** The follower part of the HTML extractor: the first og:description that matches,
      then the page text only while no count was found. */
  method HtmlFollowers(page: HtmlPage) returns (followers: JsValue)
    ensures followers == PageFollowers(page)
  {
    followers := Null;
    var inMeta := FirstMetaCapture(page.metaContents);
    if inMeta.Some? {
      followers := Str(inMeta.value);
    }
    var inText := FindFollowerToken(page.bodyText, HtmlKeyword);
    if inText.Some? && !Truthy(followers) {
      followers := Str(inText.value.capture);
    }
  }

  /** The HTML extractor: start from empty fields, fill them from the page, take the first
      og:description that matches, then fall back to the page text. */
  method ExtractFromHtml(page: HtmlPage) returns (data: Profile)
    ensures data == HtmlProfile(page)
  {
    data := Profile(Str(""), Str(""), Str(""), Bool(false), Bool(false), Null);
    if page.pictureSrc.Some? {
      data := data.(profilePic := Str(page.pictureSrc.value));
    }
    if page.nameText.Some? {
      data := data.(fullName := Str(Trim(page.nameText.value)));
    }
    if page.bioText.Some? && page.bioText.value != "" {
      data := data.(bio := Str(Trim(page.bioText.value)));
    }
    data := data.(isVerified := Bool(page.verifiedBadges > 0));
    var followers := HtmlFollowers(page);
    data := data.(followers := followers);
    if ShowsPrivate(page.bodyText) {
      data := data.(isPrivate := Bool(true));
    }
  }

  /** The meta capture comes from the first og:description whose content matches, and
      when there is none no content matches. */
  lemma {:induction false} MetaFollowersFirst(metas: seq<Option<string>>) returns (i: nat)
    ensures MetaFollowers(metas).Some? ==>
      && i < |metas| && FindFollowerToken(MetaContent(metas[i]), HtmlKeyword).Some?
      && MetaFollowers(metas).value == FindFollowerToken(MetaContent(metas[i]), HtmlKeyword).value.capture
    ensures MetaFollowers(metas).Some? ==>
      forall j :: 0 <= j < i ==> FindFollowerToken(MetaContent(metas[j]), HtmlKeyword).None?
    ensures MetaFollowers(metas).None? ==>
      forall j :: 0 <= j < |metas| ==> FindFollowerToken(MetaContent(metas[j]), HtmlKeyword).None?
  {
    if metas == [] {
      i := 0;
    } else if FindFollowerToken(MetaContent(metas[0]), HtmlKeyword).Some? {
      i := 0;
    } else {
      var k := MetaFollowersFirst(metas[1..]);
      i := k + 1;
      forall j | 0 <= j < |metas| && (MetaFollowers(metas).None? || j < i)
        ensures FindFollowerToken(MetaContent(metas[j]), HtmlKeyword).None?
      {
        if j > 0 {
          assert metas[j] == metas[1..][j - 1];
        }
      }
    }
  }

  /** A matching og:description wins over the page text; the page text is used only when
      no meta matches; the count is null only when neither matches. */
  lemma HtmlFollowersPriority(page: HtmlPage)
    ensures MetaFollowers(page.metaContents).Some? ==>
      HtmlProfile(page).followers == Str(MetaFollowers(page.metaContents).value)
    ensures MetaFollowers(page.metaContents).None? && FindFollowerToken(page.bodyText, HtmlKeyword).Some? ==>
      HtmlProfile(page).followers == Str(FindFollowerToken(page.bodyText, HtmlKeyword).value.capture)
    ensures HtmlProfile(page).followers == Null <==>
      MetaFollowers(page.metaContents).None? && FindFollowerToken(page.bodyText, HtmlKeyword).None?
  {
  }

  /** The name and bio the HTML extractor reports carry no surrounding whitespace. */
  lemma HtmlTextsTrimmed(page: HtmlPage)
    ensures var n := HtmlProfile(page).fullName.s;
      n != "" ==> !IsWhitespace(n[0]) && !IsWhitespace(n[|n| - 1])
    ensures var b := HtmlProfile(page).bio.s;
      b != "" ==> !IsWhitespace(b[0]) && !IsWhitespace(b[|b| - 1])
  {
    if page.nameText.Some? && Trim(page.nameText.value) != "" {
      TrimEnds(page.nameText.value);
    }
    if page.bioText.Some? && page.bioText.value != "" && Trim(page.bioText.value) != "" {
      TrimEnds(page.bioText.value);
    }
  }

  // ---------------------------------------------------------------------------
  // Merging the three sources

  /** `!profileData || !profileData.followers`: another source must be consulted. */
  predicate NeedsFallback(pd: Option<Profile>) {
    pd.None? || !Truthy(pd.value.followers)
  }

  /** `if (!pd.f) pd.f = html.f`. */
  function FillText(current: JsValue, candidate: JsValue): (r: JsValue)
    ensures Truthy(current) ==> r == current
    ensures !Truthy(current) ==> r == candidate
  {
    if Truthy(current) then current else candidate
  }

  /** `if (html.f) pd.f = html.f`. */
  function RaiseFlag(current: JsValue, candidate: JsValue): (r: JsValue)
    ensures Truthy(r) <==> Truthy(current) || Truthy(candidate)
  {
    if Truthy(candidate) then candidate else current
  }

  /** The profile data after the HTML result has been merged into `pd`. */
  function WithHtml(pd: Profile, html: Profile): Profile {
    Profile(
      fullName := FillText(pd.fullName, html.fullName),
      bio := FillText(pd.bio, html.bio),
      profilePic := FillText(pd.profilePic, html.profilePic),
      isPrivate := RaiseFlag(pd.isPrivate, html.isPrivate),
      isVerified := RaiseFlag(pd.isVerified, html.isVerified),
      followers := html.followers)
  }

  /** The profile data after the JSON-LD stage: `Object.assign` copies all six fields of
      the JSON-LD result, so it replaces whatever the `_sharedData` stage produced. */
  function AfterJsonLd(shared: Option<Profile>, jsonLd: Option<Profile>): Option<Profile> {
    if NeedsFallback(shared) && jsonLd.Some? then jsonLd else shared
  }

  /** The profile data the three stages produce from the three extraction results. */
  function Merged(shared: Option<Profile>, jsonLd: Option<Profile>, html: Option<Profile>): (r: Option<Profile>)
    ensures r.None? <==> shared.None? && jsonLd.None? && (html.None? || !Truthy(html.value.followers))
  {
    var pd := AfterJsonLd(shared, jsonLd);
    if NeedsFallback(pd) && html.Some? && Truthy(html.value.followers)
    then Some(WithHtml(pd.GetOr(EmptyObject), html.value))
    else pd
  }

  /** The HTML extractor's result; `None` when the page cannot be read. */
  function HtmlResult(page: Option<HtmlPage>): Option<Profile> {
    if page.Some? then Some(HtmlProfile(page.value)) else None
  }

  /** The merge at the heart of an attempt. Each later extractor runs only when the data
      gathered so far has no truthy `followers`; the flags say which ones ran. */
  method GatherProfile(sharedData: JsValue, jsonLd: JsValue, htmlPage: Option<HtmlPage>)
    returns (profileData: Option<Profile>, readJsonLd: bool, readHtml: bool)
    ensures var shared := ExtractFromSharedData(sharedData);
      && readJsonLd == NeedsFallback(shared)
      && readHtml == NeedsFallback(AfterJsonLd(shared, ExtractFromJsonLd(jsonLd)))
    ensures profileData == Merged(ExtractFromSharedData(sharedData), ExtractFromJsonLd(jsonLd), HtmlResult(htmlPage))
  {
    readJsonLd, readHtml := false, false;
    profileData := ExtractFromSharedData(sharedData);

    if NeedsFallback(profileData) {
      readJsonLd := true;
      var jsonLdData := ExtractFromJsonLd(jsonLd);
      if jsonLdData.Some? {
        // `profileData || {}` followed by `Object.assign` of all six fields
        var target := profileData.GetOr(EmptyObject);
        var source := jsonLdData.value;
        target := target.(fullName := source.fullName, bio := source.bio, profilePic := source.profilePic,
                          isPrivate := source.isPrivate, isVerified := source.isVerified,
                          followers := source.followers);
        profileData := Some(target);
      }
    }

    if NeedsFallback(profileData) {
      readHtml := true;
      var htmlData: Option<Profile> := None;
      if htmlPage.Some? {
        var h := ExtractFromHtml(htmlPage.value);
        htmlData := Some(h);
      }
      if htmlData.Some? && Truthy(htmlData.value.followers) {
        var html := htmlData.value;
        var p := profileData.GetOr(EmptyObject);
        p := p.(followers := html.followers);
        if !Truthy(p.fullName) { p := p.(fullName := html.fullName); }
        if !Truthy(p.bio) { p := p.(bio := html.bio); }
        if !Truthy(p.profilePic) { p := p.(profilePic := html.profilePic); }
        if Truthy(html.isVerified) { p := p.(isVerified := html.isVerified); }
        if Truthy(html.isPrivate) { p := p.(isPrivate := html.isPrivate); }
        profileData := Some(p);
      }
    }
  }

  /** `_sharedData` with a truthy count is used as it is; nothing else is consulted. */
  lemma SharedDataFirst(shared: Option<Profile>, jsonLd: Option<Profile>, html: Option<Profile>)
    requires !NeedsFallback(shared)
    ensures Merged(shared, jsonLd, html) == shared
  {
  }

  /** A JSON-LD result replaces all six fields of the `_sharedData` result, even fields that
      were set, and stays as it is unless its count is falsy and the HTML result fills in. */
  lemma JsonLdOverwrites(shared: Option<Profile>, jsonLd: Option<Profile>, html: Option<Profile>)
    requires NeedsFallback(shared) && jsonLd.Some?
    ensures AfterJsonLd(shared, jsonLd) == jsonLd
    ensures !NeedsFallback(jsonLd) || html.None? || !Truthy(html.value.followers) ==>
      Merged(shared, jsonLd, html) == jsonLd
  {
  }

  /** The HTML result is merged only when its count is truthy. It then supplies the count,
      fills text fields that are empty, and can set a flag but never clear one. */
  lemma HtmlFillsIn(shared: Option<Profile>, jsonLd: Option<Profile>, html: Option<Profile>)
    requires NeedsFallback(AfterJsonLd(shared, jsonLd)) && html.Some? && Truthy(html.value.followers)
    ensures var before := AfterJsonLd(shared, jsonLd).GetOr(EmptyObject);
      var h := html.value;
      var after := Merged(shared, jsonLd, html).value;
      && Merged(shared, jsonLd, html).Some?
      && after.followers == h.followers
      && (Truthy(before.fullName) ==> after.fullName == before.fullName)
      && (!Truthy(before.fullName) ==> after.fullName == h.fullName)
      && (Truthy(before.bio) ==> after.bio == before.bio)
      && (!Truthy(before.bio) ==> after.bio == h.bio)
      && (Truthy(before.profilePic) ==> after.profilePic == before.profilePic)
      && (!Truthy(before.profilePic) ==> after.profilePic == h.profilePic)
      && (Truthy(after.isPrivate) <==> Truthy(before.isPrivate) || Truthy(h.isPrivate))
      && (Truthy(after.isVerified) <==> Truthy(before.isVerified) || Truthy(h.isVerified))
  {
  }

  /** An HTML result with a falsy count changes nothing. */
  lemma HtmlWithoutCountIgnored(shared: Option<Profile>, jsonLd: Option<Profile>, html: Option<Profile>)
    requires html.None? || !Truthy(html.value.followers)
    ensures Merged(shared, jsonLd, html) == AfterJsonLd(shared, jsonLd)
  {
  }

  // ---------------------------------------------------------------------------
  // The record the scraper returns

  /** `followers` of the result: a string through `parseFollowers`, a number through
      `toString`, anything else 'unknown'; then `toString` of that. */
  function FollowersText(followers: JsValue): (r: string)
    ensures r == "unknown" || IsIntegerText(r)
  {
    match followers
    case Str(_) =>
      (match ParseFollowers(followers)
       case Unknown => "unknown"
       case Count(n) => IntToString(n))
    case Num(n) => IntToString(n)
    case _ => "unknown"
  }

  /** The followers text is a decimal numeral exactly when the value is a number or a
      string `parseFollowers` can read, and its value is that number or that count. */
  lemma FollowersTextMeaning(followers: JsValue)
    ensures var r := FollowersText(followers);
      IsIntegerText(r) ==>
        || (followers.Num? && IntegerTextValue(r) == followers.n)
        || (followers.Str? && ParseFollowers(followers) == Count(IntegerTextValue(r)))
    ensures FollowersText(followers) == "unknown" <==>
      !followers.Num? && (!followers.Str? || ParseFollowers(followers).Unknown?)
  {
    if followers.Num? {
      IntToStringRoundTrip(followers.n);
    } else if followers.Str? && ParseFollowers(followers).Count? {
      IntToStringRoundTrip(ParseFollowers(followers).n);
    }
  }

  /** The JSON record a successful scrape returns. */
  datatype ScrapeRecord = ScrapeRecord(username: string, followers: string, bio: JsValue,
                                       fullName: JsValue, profilePic: JsValue, isPrivate: JsValue,
                                       isVerified: JsValue, scrapedAt: string)

  /** The result record built from the gathered profile data. */
  function Assemble(username: string, pd: Profile, scrapedAt: string): (r: ScrapeRecord)
    ensures r.username == username && r.scrapedAt == scrapedAt
    ensures r.followers == FollowersText(pd.followers)
    ensures && DefaultsTo(r.bio, Str("")) && DefaultsTo(r.fullName, Str(""))
            && DefaultsTo(r.profilePic, Str(""))
            && DefaultsTo(r.isPrivate, Bool(false)) && DefaultsTo(r.isVerified, Bool(false))
    ensures && (Truthy(pd.bio) ==> r.bio == pd.bio) && (Truthy(pd.fullName) ==> r.fullName == pd.fullName)
            && (Truthy(pd.profilePic) ==> r.profilePic == pd.profilePic)
            && (Truthy(pd.isPrivate) ==> r.isPrivate == pd.isPrivate)
            && (Truthy(pd.isVerified) ==> r.isVerified == pd.isVerified)
    ensures && (!Truthy(pd.bio) ==> r.bio == Str("")) && (!Truthy(pd.fullName) ==> r.fullName == Str(""))
            && (!Truthy(pd.profilePic) ==> r.profilePic == Str(""))
            && (!Truthy(pd.isPrivate) ==> r.isPrivate == Bool(false))
            && (!Truthy(pd.isVerified) ==> r.isVerified == Bool(false))
  {
    ScrapeRecord(
      username := username,
      followers := FollowersText(pd.followers),
      bio := Or(pd.bio, Str("")),
      fullName := Or(pd.fullName, Str("")),
      profilePic := Or(pd.profilePic, Str("")),
      isPrivate := Or(pd.isPrivate, Bool(false)),
      isVerified := Or(pd.isVerified, Bool(false)),
      scrapedAt := scrapedAt)
  }

  /** A count of 0 from `_sharedData` is reported as "0", not as 'unknown'. */
  lemma ZeroCountText()
    ensures FollowersText(Num(0)) == "0"
  {
  }
}
