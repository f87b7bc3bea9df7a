# Quandl.NET client core, modelled in Dafny

A model of the `Quandl` class of the Quandl.NET client library (`Quandl/QuandlDotNet.cs`): a
client for the Quandl.com HTTP API that builds request URLs for a dataset or a search, fetches
the payload, and maps a CSV payload line by line onto records of a caller-defined type.

The model keeps the class's shape. `QuandlDotNet.Quandl` is a class with the two fields the
source updates in place, `authToken` and `outputFormat` (`None` stands for the null the field
holds before the first fetch). Its methods build the request URL with the same loops over the
settings, fill the record list with the same loop over the payload's lines, and sanitise the
search query in a character buffer with the same two in-place replacements. Each method is
proved against a specification function:

- `RequestUrls.DatasetUrl` and `RequestUrls.SearchUrl` give the exact URL strings, and
  `RecordMapping.Records` the exact record sequence.
- The meaning of those functions is proved separately. The URLs are read back by an
  independent query-string reader (`QueryStrings`: nothing from the first `#` on is sent,
  the path is what comes before the first `?`, the query is cut into pieces at every `&`,
  empty pieces are ignored, and name and value are split at the first `=`). The line mapping is
  characterised by which line positions reach the record constructor.

The transport (`WebClient.DownloadString`) is the caller-supplied function `download` (the
payload the server returns for a URL). `GetRawData` and `SearchQuandl` return the URL they
hand to it along with the payload. The record type's constructor, which the source calls by
reflection, is the caller-supplied function `construct`. The settings dictionary is the
sequence of its entries in enumeration order. The .NET string operations the code relies on
are modelled in `DotNetText`:

- `String.Split(char[])`, which keeps empty entries.
- `String.Trim()`, using the `Char.IsWhiteSpace` character set.
- `StringBuilder.Replace(char, char)`.

Files: `dotnet_text.dfy`, `query_strings.dfy`, `request_urls.dfy`, `record_mapping.dfy`,
`quandl.dfy`.

## Model

| member | source | states |
|---|---|---|
| `QuandlDotNet.Quandl.constructor` | Quandl/QuandlDotNet.cs:44-47 | the token is the argument, empty by default; no format has been requested yet |
| `QuandlDotNet.Quandl.SetAuthToken` | Quandl/QuandlDotNet.cs:52-55 | the token becomes the argument and the output format is unchanged |
| `QuandlDotNet.Quandl.GetRawData` | Quandl/QuandlDotNet.cs:65-101 | the output format becomes the argument and the token is unchanged; the requested URL is the API root, `datasets/`, dataset, `.`, format and `?`, then either `key=value&` per setting (no token) or `auth_token=` and the token, then `&key=value` per setting, in enumeration order; the payload is what the transport returns for that URL |
| `QuandlDotNet.Quandl.GetData` | Quandl/QuandlDotNet.cs:112-135 | the output format becomes the argument and the token is unchanged; the result is one record per non-blank line after the header of the payload fetched for the dataset URL, in order |
| `QuandlDotNet.Quandl.SearchQuandl` | Quandl/QuandlDotNet.cs:138-178 | the output format becomes the argument and the token is unchanged; the requested URL is the API root, `datasets.`, format, `?query=` and the formatted query, then `&auth_token=` and the token only when it is set, then `&key=value` per setting, in order |
| `QuandlDotNet.Quandl.FormatQuery` | Quandl/QuandlDotNet.cs:185-193 | the result has the query's length, holds no ' ' and no '&', has '+' wherever the query had either, and every other character unchanged in place |
| `DotNetText.Replace` | Quandl/QuandlDotNet.cs:188-189 | the buffer afterwards holds its old characters with every occurrence of one character replaced by another |
| `DotNetText.Split` | Quandl/QuandlDotNet.cs:124 | splitting always yields at least one piece, even for the empty string |
| `DotNetText.SplitPieces` | Quandl/QuandlDotNet.cs:124 | no piece of a split holds a separator |
| `DotNetText.SplitNoSeparator` | Quandl/QuandlDotNet.cs:124 | a text without separators is split into itself alone |
| `DotNetText.SplitAppend` | Quandl/QuandlDotNet.cs:124 | a separator between two texts splits into the pieces of the left text followed by those of the right text |
| `DotNetText.TrimStartDropsWhiteSpacePrefix` | Quandl/QuandlDotNet.cs:129 | trimming the start leaves a suffix that is empty or starts with a non-white-space character, and drops only white space |
| `DotNetText.TrimEndDropsWhiteSpaceSuffix` | Quandl/QuandlDotNet.cs:129 | trimming the end leaves a prefix that is empty or ends with a non-white-space character, and drops only white space |
| `DotNetText.TrimEmptyIffAllWhiteSpace` | Quandl/QuandlDotNet.cs:129 | a line trims to nothing exactly when all its characters are white space |
| `RecordMapping.Lines` | Quandl/QuandlDotNet.cs:124-125 | the payload always has a line 0, so the header is always there to drop, even for an empty payload |
| `RecordMapping.DataLineIndices` | Quandl/QuandlDotNet.cs:126-132 | the positions that reach the constructor are past the header, in range, strictly increasing, and their lines trim to something |
| `RecordMapping.RecordsUpToStep` | Quandl/QuandlDotNet.cs:126-132 | each pass of the loop over lines adds that line's record exactly when its trimmed form is not empty |
| `RecordMapping.DataLineIndicesExact` | Quandl/QuandlDotNet.cs:126-132 | a position reaches the constructor exactly when it is past the header and its line has a non-white-space character |
| `RecordMapping.DataLineCount` | Quandl/QuandlDotNet.cs:126-132 | there are as many records as non-blank lines after the header |
| `RecordMapping.DataLineIndicesIgnoreHeader` | Quandl/QuandlDotNet.cs:126-129 | line sequences that differ only in line 0 select the same positions |
| `RecordMapping.HeaderIgnored` | Quandl/QuandlDotNet.cs:124-132 | two payloads that differ only in their header line give the same records |
| `RecordMapping.NoLineBreakNoRecords` | Quandl/QuandlDotNet.cs:124-126 | a payload without '\r' or '\n', the empty one included, gives no records |
| `RecordMapping.CrLfEmptyEntry` | Quandl/QuandlDotNet.cs:124-129 | "\r\n" leaves an empty line between the two lines it separates, and that empty line is blank, so it is skipped |
| `RecordMapping.LinesOfTerminatedLines` | Quandl/QuandlDotNet.cs:124 | lines each followed by '\n' split back into those lines plus a final empty one |
| `RecordMapping.HeaderBlankAndTrailingBreak` | Quandl/QuandlDotNet.cs:124-133 | the payload "header\nA,1\n\nB,2\n" gives exactly the records for "A,1" and "B,2" |
| `RequestUrls.TrailingParamsStep` | Quandl/QuandlDotNet.cs:76-79 | each pass of the unauthenticated loop appends exactly that setting's `key=value&` |
| `RequestUrls.LeadingParamsStep` | Quandl/QuandlDotNet.cs:84-87 | each pass of the authenticated loop, and of the search loop, appends exactly that setting's `&key=value` |
| `RequestUrls.TrailingLeadingShift` | Quandl/QuandlDotNet.cs:76-87 | the two branches' settings fragments differ only by where the '&' sits: '&' before the trailing form equals the leading form followed by '&' |
| `RequestUrls.ParsePair` | Quandl/QuandlDotNet.cs:78 | a plain setting's `key=value` fragment is read back as that setting |
| `RequestUrls.ParseLeadingParams` | Quandl/QuandlDotNet.cs:84-87 | each `&key=value` fragment is read back as its own pair, in order, after what precedes it |
| `RequestUrls.ParseTrailingParams` | Quandl/QuandlDotNet.cs:76-79 | the `key=value&` fragments are read back as exactly the settings, in order; the final '&' adds nothing |
| `RequestUrls.ParseAuthToken` | Quandl/QuandlDotNet.cs:83 | `auth_token=` and the token is read back as the single pair `auth_token` |
| `RequestUrls.DatasetUrlParts` | Quandl/QuandlDotNet.cs:73-88 | the dataset URL is its path, '?', and then either the settings fragments or `auth_token=`, the token and the settings fragments |
| `RequestUrls.DatasetUrlQuery` | Quandl/QuandlDotNet.cs:73-88 | the dataset URL's path is root, `datasets/`, dataset, `.`, format; the query the server is sent holds an `auth_token` pair exactly when a token is set, then the settings in order, and nothing else |
| `RequestUrls.ParseSearchHead` | Quandl/QuandlDotNet.cs:144-156 | the search query starts with the `query` pair holding the formatted text, followed by an `auth_token` pair only when a token is set |
| `RequestUrls.SearchUrlQuery` | Quandl/QuandlDotNet.cs:141-162 | the search URL's path is root, `datasets.`, format; for search text without '#', the query the server is sent holds `query`, then `auth_token` exactly when set, then the settings in order, so no such text can inject a parameter |
| `RequestUrls.FormattedQueryChars` | Quandl/QuandlDotNet.cs:187-189 | formatting keeps the length, turns ' ' and '&' into '+', keeps every other character in place, and leaves no ' ' or '&' |
| `RequestUrls.FormattedQueryKeeps` | Quandl/QuandlDotNet.cs:187-189 | a character other than ' ', '&' and '+' occurs in the formatted query exactly when it occurs in the query |
| `RequestUrls.SearchFragmentDropsParameters` | Quandl/QuandlDotNet.cs:141-162 | when the search text holds '#', the server is sent the path and only the `query` pair cut at the '#'; the token and every setting are lost |
| `RequestUrls.FormattedQueryIdempotent` | Quandl/QuandlDotNet.cs:187-189 | formatting a formatted query changes nothing |
| `RequestUrls.FormattedQuerySample` | Quandl/QuandlDotNet.cs:187-189 | "foo bar&baz" is sent as "foo+bar+baz" |

The URL lemmas assume inputs that this reader gets back unchanged (`PlainSettings` and
the lemmas' requires):
- no key holds '&' or '=';
- no value or token holds '&';
- no dataset or format holds '?';
- none of them, and no search text, holds '#'.

The client checks none of this. For other inputs the URL strings are still exactly as
`GetRawData` and `SearchQuandl` state, but they are read differently.
`SearchFragmentDropsParameters` shows the case a caller reaches most easily. `FormatQuery`
replaces only ' ' and '&', so a search for text holding '#' (say "C#") starts a fragment.
The server then sees the `query` pair cut at the '#', and neither the token nor any setting.

## Left out

- The download itself and its error path: `download` models only a transport that succeeds. The rethrown "Sorry there was an error and we could not connect to Quandl" exception (Quandl/QuandlDotNet.cs:96-99, 171-174) is network I/O and is not modelled.
- The console output of the header line and of the formatted query (Quandl/QuandlDotNet.cs:125, 191).
- Reflective construction through `Activator.CreateInstance`: the model uses a total `construct` function. Failures there are not modelled: a constructor that throws ends `GetData` (Quandl/QuandlDotNet.cs:131) with a `TargetInvocationException` wrapping that exception, and a `T` without a constructor taking one string ends it with a `MissingMethodException`.
- How a server decodes names and values: `QueryStrings` compares them as raw text, before any percent or '+' decoding. So a '+' that `FormatQuery` writes counts as a '+' there, not as a space.
- C# null arguments (a null token, null settings, a null query) are not modelled.
- Uniqueness of dictionary keys: settings are any sequence of pairs. This is more general than a `Dictionary`, and every statement holds for it.
- QuandlDemo/QuandlDemo.cs is not part of this model: it is a console entry point, and its `Candle` record parses dates and decimals through library calls.
- The code has no percent-encoding, no error types of its own, and no line index on construction errors; the model adds none. The output format is stored on every fetch (Quandl/QuandlDotNet.cs:71, 150).
