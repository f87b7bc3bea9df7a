/** The request URLs the client hands to the transport: the dataset URL of `GetRawData`, the
    search URL of `SearchQuandl` and the query sanitising of `FormatQuery`, each as the exact
    string the source concatenates, and lemmas that say what a server reading those URLs sees. */
module RequestUrls {
  import opened DotNetText
  import opened QueryStrings

  /** The API root every request starts with. */
  const QuandlApiUrl: string := "http://www.quandl.com/api/v1/"

  /** The settings dictionary, as its entries in enumeration order: (key, value). */
  type Settings = seq<(string, string)>

  /** `key=value`: one setting as the source formats it. */
  function Pair(setting: (string, string)): string {
    setting.0 + "=" + setting.1
  }

  /** `key=value&` per setting, in order: the fragments of the unauthenticated dataset URL. */
  function TrailingParams(settings: Settings): string {
    if settings == [] then []
    else TrailingParams(settings[..|settings| - 1]) + Pair(settings[|settings| - 1]) + "&"
  }

  /** `&key=value` per setting, in order: the fragments of the authenticated dataset URL and of
      the search URL. */
  function LeadingParams(settings: Settings): string {
    if settings == [] then []
    else LeadingParams(settings[..|settings| - 1]) + "&" + Pair(settings[|settings| - 1])
  }

  /** The URL `GetRawData` requests: without a token the query is the settings with a trailing
      '&' each; with one it is `auth_token=` and the token, then the settings with a leading '&'
      each. */
  function DatasetUrl(authToken: string, dataset: string, format: string, settings: Settings): string {
    if authToken == [] then
      QuandlApiUrl + ("datasets/" + dataset + "." + format + "?") + TrailingParams(settings)
    else
      QuandlApiUrl + ("datasets/" + dataset + "." + format + "?auth_token=" + authToken)
      + LeadingParams(settings)
  }

  /** The query text after `FormatQuery`: every ' ' and then every '&' turned into '+'. */
  function FormattedQuery(query: string): string {
    Replaced(Replaced(query, ' ', '+'), '&', '+')
  }

  /** The URL `SearchQuandl` requests: the formatted query, then `&auth_token=` and the token
      when there is one, then the settings with a leading '&' each. */
  function SearchUrl(authToken: string, query: string, format: string, settings: Settings): string {
    QuandlApiUrl + ("datasets." + format + "?query=" + FormattedQuery(query))
    + (if authToken != [] then "&auth_token=" + authToken else [])
    + LeadingParams(settings)
  }

  /** A key and value that a query string carries unchanged: the key holds no '&' or '=', the
      value holds no '&', and neither holds the '#' that would start a fragment. */
  predicate PlainSetting(setting: (string, string)) {
    '&' !in setting.0 && '=' !in setting.0 && '&' !in setting.1
    && '#' !in setting.0 && '#' !in setting.1
  }

  /** Settings that come back out of a URL as the pairs they went in as. The client does not
      check this. */
  predicate PlainSettings(settings: Settings) {
    forall i :: 0 <= i < |settings| ==> PlainSetting(settings[i])
  }

  /** One more setting adds one `key=value&` fragment at the end. */
  lemma TrailingParamsStep(settings: Settings, i: nat)
    requires i < |settings|
    ensures TrailingParams(settings[..i + 1]) == TrailingParams(settings[..i]) + (settings[i].0 + "=" + settings[i].1 + "&")
  {
    assert settings[..i + 1][..i] == settings[..i];
  }

  /** One more setting adds one `&key=value` fragment at the end. */
  lemma LeadingParamsStep(settings: Settings, i: nat)
    requires i < |settings|
    ensures LeadingParams(settings[..i + 1]) == LeadingParams(settings[..i]) + ("&" + settings[i].0 + "=" + settings[i].1)
  {
    assert settings[..i + 1][..i] == settings[..i];
  }

  /** Settings that are plain stay plain when the last one is dropped. */
  lemma PlainSettingsInit(settings: Settings)
    requires settings != [] && PlainSettings(settings)
    ensures PlainSettings(settings[..|settings| - 1]) && PlainSetting(settings[|settings| - 1])
  {
    var init := settings[..|settings| - 1];
    forall i | 0 <= i < |init| ensures PlainSetting(init[i]) {
      assert init[i] == settings[i];
    }
  }

  /** Plain settings start no fragment, whichever way their fragments are joined. */
  lemma {:induction false} ParamsHaveNoFragment(settings: Settings)
    requires PlainSettings(settings)
    ensures '#' !in TrailingParams(settings) && '#' !in LeadingParams(settings)
  {
    if settings != [] {
      PlainSettingsInit(settings);
      ParamsHaveNoFragment(settings[..|settings| - 1]);
    }
  }

  /** A plain setting's `key=value` is read back as that setting. */
  lemma ParsePair(setting: (string, string))
    requires PlainSetting(setting)
    ensures ParseQuery(Pair(setting)) == [setting]
  {
    ParseQueryPair(setting.0, setting.1);
  }

  /** The two branches place the separator differently, but only by one position: the
      trailing-'&' fragments behind one more '&' are the leading-'&' fragments followed by one. */
  lemma {:induction false} TrailingLeadingShift(settings: Settings)
    ensures "&" + TrailingParams(settings) == LeadingParams(settings) + "&"
  {
    if settings != [] {
      var init := settings[..|settings| - 1];
      var pair := Pair(settings[|settings| - 1]);
      TrailingLeadingShift(init);
      calc {
        "&" + TrailingParams(settings);
        ("&" + TrailingParams(init)) + pair + "&";
        (LeadingParams(init) + "&") + pair + "&";
        LeadingParams(settings) + "&";
      }
    }
  }

  /** Every setting appended with a leading '&' is read back as its own pair, in order, after
      whatever the text before it carries. */
  lemma {:induction false} ParseLeadingParams(prefix: string, settings: Settings)
    requires PlainSettings(settings)
    ensures ParseQuery(prefix + LeadingParams(settings)) == ParseQuery(prefix) + settings
  {
    if settings == [] {
      assert prefix + [] == prefix;
    } else {
      var init := settings[..|settings| - 1];
      var last := settings[|settings| - 1];
      PlainSettingsInit(settings);
      var before := prefix + LeadingParams(init);
      calc {
        ParseQuery(prefix + LeadingParams(settings));
        { assert prefix + LeadingParams(settings) == before + "&" + Pair(last); }
        ParseQuery(before + "&" + Pair(last));
        { ParseQueryAppend(before, Pair(last)); }
        ParseQuery(before) + ParseQuery(Pair(last));
        { ParseLeadingParams(prefix, init); ParsePair(last); }
        ParseQuery(prefix) + init + [last];
        { assert init + [last] == settings; }
        ParseQuery(prefix) + settings;
      }
    }
  }

  /** The trailing-'&' fragments are read back as exactly the settings, in order: the final '&'
      leaves only an empty piece, which is ignored. */
  lemma ParseTrailingParams(settings: Settings)
    requires PlainSettings(settings)
    ensures ParseQuery(TrailingParams(settings)) == settings
  {
    var trailing := TrailingParams(settings);
    var leading := LeadingParams(settings);
    TrailingLeadingShift(settings);
    ParseQueryEmpty();
    ParseLeadingParams([], settings);
    calc {
      ParseQuery(trailing);
      ParseQuery([]) + ParseQuery(trailing);
      { ParseQueryAppend([], trailing); assert [] + "&" + trailing == "&" + trailing; }
      ParseQuery("&" + trailing);
      { assert leading + "&" + [] == leading + "&"; }
      ParseQuery(leading + "&" + []);
      { ParseQueryAppend(leading, []); }
      ParseQuery(leading) + ParseQuery([]);
      { assert [] + leading == leading; }
      settings;
    }
  }

  /** `auth_token=` and a token without '&' is read as the one pair named `auth_token`. */
  lemma ParseAuthToken(authToken: string)
    requires '&' !in authToken
    ensures ParseQuery("auth_token=" + authToken) == [("auth_token", authToken)]
  {
    assert "auth_token=" + authToken == "auth_token" + "=" + authToken;
    ParseQueryPair("auth_token", authToken);
  }

  /** The text after the '?' of the dataset URL. */
  function DatasetQuery(authToken: string, settings: Settings): string {
    if authToken == [] then TrailingParams(settings)
    else "auth_token=" + authToken + LeadingParams(settings)
  }

  /** The dataset URL is its path, '?', and its query. */
  lemma DatasetUrlParts(authToken: string, dataset: string, format: string, settings: Settings)
    ensures DatasetUrl(authToken, dataset, format, settings)
         == (QuandlApiUrl + "datasets/" + dataset + "." + format) + "?" + DatasetQuery(authToken, settings)
  {
    var middle := "datasets/" + dataset + "." + format;
    var path := QuandlApiUrl + middle;
    assert path == QuandlApiUrl + "datasets/" + dataset + "." + format;
    if authToken == [] {
      calc {
        DatasetUrl(authToken, dataset, format, settings);
        QuandlApiUrl + (middle + "?") + TrailingParams(settings);
        path + "?" + TrailingParams(settings);
      }
    } else {
      var tail := "auth_token=" + authToken + LeadingParams(settings);
      calc {
        DatasetUrl(authToken, dataset, format, settings);
        QuandlApiUrl + (middle + "?auth_token=" + authToken) + LeadingParams(settings);
        { assert "?auth_token=" == "?" + "auth_token="; }
        QuandlApiUrl + (middle + ("?" + "auth_token=") + authToken) + LeadingParams(settings);
        path + "?" + tail;
      }
    }
  }

  /** The dataset URL's path is the API root, `datasets/`, the dataset and the format; its
      query carries `auth_token` exactly when a token is set, and then the settings, in order,
      with nothing else. */
  lemma DatasetUrlQuery(authToken: string, dataset: string, format: string, settings: Settings)
    requires '?' !in dataset && '?' !in format && '#' !in dataset && '#' !in format
    requires '&' !in authToken && '#' !in authToken && PlainSettings(settings)
    ensures RequestPath(DatasetUrl(authToken, dataset, format, settings))
         == QuandlApiUrl + "datasets/" + dataset + "." + format
    ensures RequestQuery(DatasetUrl(authToken, dataset, format, settings))
         == (if authToken == [] then [] else [("auth_token", authToken)]) + settings
  {
    var path := QuandlApiUrl + "datasets/" + dataset + "." + format;
    assert '?' !in path && '#' !in path;
    DatasetUrlParts(authToken, dataset, format, settings);
    ParamsHaveNoFragment(settings);
    RequestParts(path, DatasetQuery(authToken, settings));
    if authToken == [] {
      ParseTrailingParams(settings);
    } else {
      ParseLeadingParams("auth_token=" + authToken, settings);
      ParseAuthToken(authToken);
    }
  }

  /** The text after the '?' of the search URL, before the settings. */
  function SearchHead(authToken: string, query: string): string {
    "query=" + FormattedQuery(query) + (if authToken != [] then "&auth_token=" + authToken else [])
  }

  /** The search URL is its path, '?', and its query. */
  lemma SearchUrlParts(authToken: string, query: string, format: string, settings: Settings)
    ensures SearchUrl(authToken, query, format, settings)
         == (QuandlApiUrl + "datasets." + format) + "?"
            + (SearchHead(authToken, query) + LeadingParams(settings))
  {
  }

  /** The search URL's query before the settings: `query` with the formatted text, then
      `auth_token` exactly when a token is set. */
  lemma ParseSearchHead(authToken: string, query: string)
    requires '&' !in authToken
    ensures ParseQuery(SearchHead(authToken, query))
         == [("query", FormattedQuery(query))]
            + (if authToken == [] then [] else [("auth_token", authToken)])
  {
    var formatted := FormattedQuery(query);
    FormattedQueryChars(query);
    var head := "query=" + formatted;
    assert head == "query" + "=" + formatted;
    ParseQueryPair("query", formatted);
    if authToken != [] {
      assert SearchHead(authToken, query) == head + "&" + ("auth_token=" + authToken);
      ParseQueryAppend(head, "auth_token=" + authToken);
      ParseAuthToken(authToken);
    } else {
      assert SearchHead(authToken, query) == head;
    }
  }

  /** The search URL's path is the API root, `datasets.` and the format; its query carries
      `query` with the formatted query text, then `auth_token` exactly when a token is set, then
      the settings, in order. Since the formatted query has no '&', no text the caller searches
      for can add a parameter. */
  lemma SearchUrlQuery(authToken: string, query: string, format: string, settings: Settings)
    requires '?' !in format && '#' !in format && '#' !in query
    requires '&' !in authToken && '#' !in authToken && PlainSettings(settings)
    ensures RequestPath(SearchUrl(authToken, query, format, settings))
         == QuandlApiUrl + "datasets." + format
    ensures RequestQuery(SearchUrl(authToken, query, format, settings))
         == [("query", FormattedQuery(query))]
            + (if authToken == [] then [] else [("auth_token", authToken)]) + settings
  {
    var path := QuandlApiUrl + "datasets." + format;
    assert '?' !in path && '#' !in path;
    var head := SearchHead(authToken, query);
    SearchUrlParts(authToken, query, format, settings);
    FormattedQueryKeeps(query, '#');
    ParamsHaveNoFragment(settings);
    RequestParts(path, head + LeadingParams(settings));
    ParseLeadingParams(head, settings);
    ParseSearchHead(authToken, query);
  }

  /** `FormatQuery` keeps the length and every position: a ' ' or '&' becomes '+', anything
      else stays, so no ' ' and no '&' is left. */
  lemma FormattedQueryChars(query: string)
    ensures |FormattedQuery(query)| == |query|
    ensures forall i :: 0 <= i < |query| ==>
      FormattedQuery(query)[i] == if query[i] == ' ' || query[i] == '&' then '+' else query[i]
    ensures ' ' !in FormattedQuery(query) && '&' !in FormattedQuery(query)
  {
    var r := FormattedQuery(query);
    forall i | 0 <= i < |r| ensures r[i] != ' ' && r[i] != '&' {
    }
  }

  /** `FormatQuery` leaves every character other than ' ', '&' and '+' where it was, so such a
      character is in the formatted query exactly when it is in the query. */
  lemma FormattedQueryKeeps(query: string, c: char)
    requires c != ' ' && c != '&' && c != '+'
    ensures c in FormattedQuery(query) <==> c in query
  {
    var r := FormattedQuery(query);
    FormattedQueryChars(query);
    if c in query {
      var i :| 0 <= i < |query| && query[i] == c;
      assert r[i] == c;
    }
    if c in r {
      var i :| 0 <= i < |r| && r[i] == c;
      assert query[i] == c;
    }
  }

  /** A '#' inside the value of a leading `query` pair ends what is sent: the server sees that
      pair alone, cut at the '#'. */
  lemma FragmentInQueryValue(path: string, before: string, after: string, rest: string)
    requires '?' !in path && '#' !in path && '#' !in before && '&' !in before
    ensures RequestPath(path + "?" + ("query=" + (before + "#" + after) + rest)) == path
    ensures RequestQuery(path + "?" + ("query=" + (before + "#" + after) + rest)) == [("query", before)]
  {
    var url := path + "?" + ("query=" + (before + "#" + after) + rest);
    var pair := "query=" + before;
    var sent := path + "?" + pair;
    assert url == sent + "#" + (after + rest);
    assert '#' !in pair by { assert pair == "query" + "=" + before; }
    SplitFirstAfter(sent, '#', after + rest);
    assert Sent(url) == sent;
    SplitFirstAfter(path, '?', pair);
    assert pair == "query" + "=" + before;
    ParseQueryPair("query", before);
  }

  /** A '#' in the search text is passed on by `FormatQuery` and starts a fragment: the server
      sees only the `query` pair, holding the formatted text before the '#', and neither the
      token nor any setting. */
  lemma SearchFragmentDropsParameters(authToken: string, query: string, format: string, settings: Settings)
    requires '?' !in format && '#' !in format && '#' in query
    ensures RequestPath(SearchUrl(authToken, query, format, settings))
         == QuandlApiUrl + "datasets." + format
    ensures RequestQuery(SearchUrl(authToken, query, format, settings))
         == [("query", SplitFirst(FormattedQuery(query), '#').0)]
  {
    var path := QuandlApiUrl + "datasets." + format;
    assert '?' !in path && '#' !in path;
    var formatted := FormattedQuery(query);
    FormattedQueryChars(query);
    FormattedQueryKeeps(query, '#');
    var parts := SplitFirst(formatted, '#');
    assert '&' !in parts.0;
    var tail := (if authToken != [] then "&auth_token=" + authToken else []) + LeadingParams(settings);
    SearchUrlParts(authToken, query, format, settings);
    assert SearchHead(authToken, query) + LeadingParams(settings) == "query=" + formatted + tail;
    FragmentInQueryValue(path, parts.0, parts.1, tail);
  }

  /** Formatting an already formatted query changes nothing. */
  lemma FormattedQueryIdempotent(query: string)
    ensures FormattedQuery(FormattedQuery(query)) == FormattedQuery(query)
  {
    var once := FormattedQuery(query);
    FormattedQueryChars(query);
    FormattedQueryChars(once);
  }

  /** Searching for "foo bar&baz" sends `query=foo+bar+baz`. */
  lemma FormattedQuerySample(query: string)
    requires query == "foo bar&baz"
    ensures FormattedQuery(query) == "foo+bar+baz"
  {
    FormattedQueryChars(query);
  }
}
