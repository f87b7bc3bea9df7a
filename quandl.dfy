/** The `Quandl` client class: an authentication token and the last requested output format,
    the fetch operations that build a request URL and hand it to the transport, the mapping of
    a CSV payload to caller-defined records, and the query sanitising of the search call. The
    transport is the caller-supplied `download` function (what the server answers for a URL);
    the record type's constructor is the caller-supplied `construct` function. */
module QuandlDotNet {
  import opened DotNetText
  import opened RequestUrls
  import opened RecordMapping

  datatype Option<T> = None | Some(value: T)

  class Quandl {
    /** The token sent as `auth_token`; empty means unauthenticated (a few requests a day). */
    var authToken: string
    /** The format of the last fetch; `None` before any fetch (the field is null then). */
    var outputFormat: Option<string>

    /** Stores the token, which defaults to the empty one. */
    constructor (authenticationToken: string := "")
      ensures authToken == authenticationToken && outputFormat == None
    {
      authToken := authenticationToken;
      outputFormat := None;
    }

    /** Replaces the token and nothing else. */
    method SetAuthToken(token: string)
      modifies this`authToken
      ensures authToken == token && outputFormat == old(outputFormat)
    {
      authToken := token;
    }

    /** Records the format, builds the dataset URL from the token, the dataset, the format and
        the settings in enumeration order, and fetches it. Returns the URL it requested along
        with the payload. */
    method GetRawData(dataset: string, settings: Settings, download: string -> string,
                      format: string := "csv")
      returns (requestUrl: string, rawData: string)
      modifies this`outputFormat
      ensures outputFormat == Some(format) && authToken == old(authToken)
      ensures requestUrl == DatasetUrl(authToken, dataset, format, settings)
      ensures rawData == download(requestUrl)
    {
      outputFormat := Some(format);

      if authToken == [] {
        requestUrl := QuandlApiUrl + ("datasets/" + dataset + "." + format + "?");
        ghost var head := requestUrl;
        assert requestUrl == head + TrailingParams(settings[..0]);
        for i := 0 to |settings|
          invariant outputFormat == Some(format)
          invariant requestUrl == head + TrailingParams(settings[..i])
        {
          var key, value := settings[i].0, settings[i].1;
          TrailingParamsStep(settings, i);
          requestUrl := requestUrl + (key + "=" + value + "&");
        }
        assert settings[..|settings|] == settings;
      } else {
        requestUrl := QuandlApiUrl + ("datasets/" + dataset + "." + format + "?auth_token=" + authToken);
        ghost var head := requestUrl;
        assert requestUrl == head + LeadingParams(settings[..0]);
        for i := 0 to |settings|
          invariant outputFormat == Some(format)
          invariant requestUrl == head + LeadingParams(settings[..i])
        {
          var key, value := settings[i].0, settings[i].1;
          LeadingParamsStep(settings, i);
          requestUrl := requestUrl + ("&" + key + "=" + value);
        }
        assert settings[..|settings|] == settings;
      }

      rawData := download(requestUrl);
    }

    /** Fetches the dataset and builds one record per line after the header whose trimmed form
        is not empty, from the untrimmed line, in payload order. */
    method GetData<T>(dataset: string, settings: Settings, download: string -> string,
                      construct: string -> T, format: string := "csv")
      returns (data: seq<T>)
      modifies this`outputFormat
      ensures outputFormat == Some(format) && authToken == old(authToken)
      ensures data == Records(download(DatasetUrl(authToken, dataset, format, settings)), construct)
    {
      data := [];
      var _, rawData := GetRawData(dataset, settings, download, format);

      var lines := Lines(rawData);
      for i := 1 to |lines|
        invariant outputFormat == Some(format)
        invariant data == RecordsUpTo(lines, i, construct)
      {
        RecordsUpToStep(lines, i, construct);
        var line := lines[i];
        if |Trim(line)| > 0 {
          data := data + [construct(line)];
        }
      }
    }

    /** Builds the search URL from the formatted query, the token when there is one and the
        settings in enumeration order, records the format, and fetches it. Returns the URL it
        requested along with the payload. */
    method SearchQuandl(query: string, settings: Settings, download: string -> string,
                        format: string := "xml")
      returns (searchUrl: string, rawData: string)
      modifies this`outputFormat
      ensures outputFormat == Some(format) && authToken == old(authToken)
      ensures searchUrl == SearchUrl(authToken, query, format, settings)
      ensures rawData == download(searchUrl)
    {
      var formattedQuery := FormatQuery(query);

      searchUrl := QuandlApiUrl + ("datasets." + format + "?query=" + formattedQuery);

      outputFormat := Some(format);

      if authToken != [] {
        searchUrl := searchUrl + ("&auth_token=" + authToken);
      }
      ghost var head := searchUrl;

      for i := 0 to |settings|
        invariant outputFormat == Some(format)
        invariant searchUrl == head + LeadingParams(settings[..i])
      {
        var key, value := settings[i].0, settings[i].1;
        LeadingParamsStep(settings, i);
        searchUrl := searchUrl + ("&" + key + "=" + value);
      }
      assert settings[..|settings|] == settings;

      rawData := download(searchUrl);
    }

    /** Copies the query into a buffer and replaces, in place, every ' ' and then every '&' by
        '+': the result has the query's length, no ' ' and no '&', and every other character
        where it was. */
    method FormatQuery(query: string) returns (formatted: string)
      ensures formatted == FormattedQuery(query)
      ensures |formatted| == |query| && ' ' !in formatted && '&' !in formatted
      ensures forall i :: 0 <= i < |query| ==>
        formatted[i] == if query[i] == ' ' || query[i] == '&' then '+' else query[i]
    {
      var builder := new char[|query|](i requires 0 <= i < |query| => query[i]);
      assert builder[..] == query;
      Replace(builder, ' ', '+');
      Replace(builder, '&', '+');
      formatted := builder[..];
      FormattedQueryChars(query);
    }
  }
}
