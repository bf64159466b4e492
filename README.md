# dospace: a Dafny model of the Spaces client

`dospace` is a Go client for DigitalOcean Spaces, an S3-compatible object
store. It is a thin layer over the AWS SDK: each operation forwards one SDK
call and wraps any error. This project models the decisions that the layer
makes around those calls, and proves properties of them:

- **Construction** (`NewClient`). The client refuses an empty endpoint,
  bucket, access key or secret key. It never checks the region. It configures
  the SDK with the endpoint, the signing region, static credentials and
  path-style addressing. It stores the bucket and the endpoint exactly as
  given. Loading the SDK configuration is an opaque step that may fail; its
  outcome is an input.
- **Upload header policy** (`UploadFromReader`, `Upload`, `shouldBeInline`).
  Every upload is `public-read`. The first content-type argument, when
  present and non-empty, becomes the Content-Type. The object is marked
  `inline` when that type, lower-cased, starts with `image/`, `video/` or
  `audio/`, or equals `application/pdf`. `Upload` is `UploadFromReader`
  over a reader of the given bytes.
- **Existence check** (`Exists`). What the HEAD probe reports is mapped to
  the `(bool, error)` pair: success, a "not found" answer (structured or by
  error code `NotFound`/`NoSuchKey`), or any other failure.
- **Public URL** (`GetPublicURL`). One leading `https://` and then one
  leading `http://` are removed from the endpoint. The URL is always
  `https://host/bucket/key`.
- **Listing** (`List`). This is the pagination loop over ListObjectsV2. The
  store is a script of page answers. The model records every request the
  loop sends.

Files:

- `outcomes.dfy` (module `Outcomes`): `Option`, `Result`, the SDK errors the
  client looks into, and the client's own errors.
- `text.dfy` (module `Text`): the parts of Go's `strings` package in use
  (`ToLower`, `HasPrefix`, `TrimPrefix`) and an index search.
- `client.dfy` (module `Spaces`): client.go.
- `list.dfy` (module `Listing`): list.go, and four scenario methods that run
  `List`: a two-page listing, a keyless entry, a failing second page, and a
  truncated page without a token.

The client is a value (`datatype Client`). The Go struct is never changed
after construction. `UploadFromReader` builds its request and then updates
the ContentType and ContentDisposition fields one step at a time. `List`
is a `while true` loop that appends keys and replaces the continuation token
until it hits a `break` or a `return`. Both are methods proved against
specification functions (`PutRequest`, and `StopIndex`, `SentRequests` and
`KeysOf` for the listing). Lemmas then prove what the source promises about
those functions.

Go's `shouldBeInline` is the predicate `Spaces.ShouldBeInline`, and the
nested `strings.TrimPrefix` calls that strip the scheme in `GetPublicURL`
are the function `Spaces.Host`. The table below lists the lemmas about them.

Three behaviours of the code are easy to misread:

- The code lower-cases the whole content type before comparing it, so
  `application/pdf` matches in any case (`Application/PDF` is inline).
- The region is never checked: an empty region is accepted.
- The doc comment at client.go:152-153 describes a virtual-hosted URL
  (`https://bucket.region.../key`). The code builds a path-style URL
  (`https://host/bucket/key`), and the model follows the code.

## Model

| member | source | states |
|---|---|---|
| `Spaces.NewClient` | client.go:23-52 | It fails with the missing-settings error iff endpoint, bucket, accessKey or secretKey is empty. It succeeds iff none is empty and the configuration loads. A load failure is reported as such. On success the client's bucket and endpoint equal the inputs. The SDK is aimed at the endpoint, signs for the region, holds the credentials and uses path style. |
| `Spaces.NewClientIgnoresRegion` | client.go:23-26 | Whether construction succeeds does not depend on the region, and an empty region is accepted. |
| `Spaces.ShouldBeInlineByMediaType` | client.go:93-99 | The prefix test agrees, on every string, with an independent media-type reading. The primary type before the first `/`, lower-cased, is image, video or audio, or the lower-cased type is application/pdf. |
| `Spaces.ShouldBeInlineIgnoresCase` | client.go:93-94 | Two content types that agree once lower-cased get the same decision, and lower-casing first changes nothing. |
| `Spaces.ShouldBeInlineNeedsPrefix` | client.go:93-99 | A content type shorter than six characters, the empty one included, is never inline. |
| `Spaces.InlineExamples` | client_test.go:12-16 | `image/png`, `image/jpeg`, `IMAGE/PNG`, `video/mp4` and `audio/mpeg` are inline. So is `IMAGE/PNG` spelled with a dotted capital I, which Go lower-cases to `i`. |
| `Spaces.PdfExamples` | client_test.go:17 | `application/pdf` is inline, and so is `Application/PDF`. |
| `Spaces.AttachmentExamples` | client_test.go:18-21 | `text/plain`, `application/octet-stream`, `application/json` and the empty string are not inline. |
| `Spaces.PutRequest` | client.go:71-83 | The request names the client's bucket, the key and the body. The ACL is always public-read. ContentType is set iff a first content-type argument exists and is non-empty, and then it is that argument. ContentDisposition is set, to `inline`, iff ContentType is set and is inline. |
| `Spaces.PutRequestUsesFirstType` | client.go:78-79 | Only the first content-type argument affects the request. |
| `Spaces.UploadFromReader` | client.go:70-90 | The request built step by step equals `PutRequest`. The upload fails, wrapping the cause, iff PutObject fails. |
| `Spaces.Upload` | client.go:64-66 | It sends the request `PutRequest` gives for a reader over the bytes, with the same header policy and the same error outcome. |
| `Spaces.Exists` | client.go:129-150 | The object is reported present iff the probe succeeded. No error is reported iff the probe succeeded or failed with a structured not-found or code `NotFound`/`NoSuchKey`. Any other failure is reported as `(false, error wrapping the cause)`. |
| `Spaces.ExistsFalseIsAmbiguous` | client.go:134-149 | An absent object and a failed probe both answer `false`, and only the error tells them apart. `NoSuchKey` and `NotFound` codes give `(false, no error)`. Another code gives an error. |
| `Spaces.GetPublicURL` | client.go:154-157 | The URL always starts with `https://`. Then come the stripped host, `/`, the bucket, `/` and the key. |
| `Spaces.PublicURLKeyRoundTrip` | client.go:156 | When neither host nor bucket contains `/`, the object key can be read back from the URL, so distinct keys give distinct URLs. |
| `Spaces.HostStripsScheme` | client.go:155 | A host without a scheme comes out unchanged from an `https://` endpoint, an `http://` endpoint and a bare endpoint. |
| `Spaces.HostStripsEachSchemeOnce` | client.go:155 | Each prefix is removed at most once, `https://` first. `https://http://h` gives `h`, and `https://https://h` gives `https://h`. |
| `Spaces.PublicURLUpgradesHttp` | client.go:154-157 | An `http://` endpoint, an `https://` endpoint and a bare host give the same `https://` URL. |
| `Spaces.PublicURLExampleSgp1` | client_test.go:38-43 | The first URL test case. |
| `Spaces.PublicURLExampleNyc3` | client_test.go:44-49 | The second URL test case. |
| `Spaces.PublicURLExampleHttp` | client_test.go:50-55 | An `http://` endpoint comes out as an `https://` URL. |
| `Text.ToLowerIdempotent` | client.go:94 | Lower-casing a string twice (`Text.ToLower`) gives the same result as lower-casing it once. |
| `Text.ToLowerNoUpper` | client.go:94 | No ASCII capital letter is left in a lower-cased string. |
| `Text.TrimPrefix` | client.go:155 | One leading prefix is removed when present, and otherwise the string is unchanged. |
| `Listing.List` | list.go:13-44 | The requests sent are exactly those `SentRequests` gives, one per answer up to and including the stopping answer (`StopIndex`). If that answer is a failure, the result is a list error wrapping it, with no keys. Otherwise the result is the keys of every fetched page, in page order (`KeysOf`). |
| `Listing.StopIndex` | list.go:37-39 | Every answer before the stopping answer is a success whose truncation flag is true. The stopping answer is a failure, or a page whose flag is nil or false. |
| `Listing.ListRequest` | list.go:18-24 | A request names the bucket and carries the given token. It has a Prefix iff the prefix is non-empty, and then it is that prefix. |
| `Listing.SentRequests` | list.go:17-26 | The loop has sent one request per answer fetched so far. |
| `Listing.SentRequestsChain` | list.go:15-40 | Every request names the client's bucket and carries the prefix iff it is non-empty. The first request has no continuation token. Each later request carries the token of the page before it. |
| `Listing.AppendPresentKeys` | list.go:31-35 | The inner loop appends, after the keys already gathered, the keys of the page's entries that have one, in entry order. |
| `Listing.PresentKeysMembers` | list.go:31-35 | A key is gathered from a page iff some entry of the page carries it, so entries without a key are skipped. |
| `Listing.PresentKeysAppend` | list.go:31-35 | Gathering keeps entry order: the keys of two runs of entries are the first run's followed by the second's. |
| `Listing.PresentKeysAllPresent` | list.go:31-35 | When every entry has a key, the gathered keys are exactly the entries' keys, in order. |
| `Listing.KeysOfMembers` | list.go:14-35 | A key is in the listing iff some fetched page has an entry carrying it. |
| `Listing.KeysOfSnoc` | list.go:31-35 | One more page adds its own keys after those already gathered. |

## Left out

- `Download` (client.go:102-113) is left out. It performs one GetObject and reads the stream to its end, which is I/O with no decision logic.
- `Delete` (client.go:116-125) is left out. It forwards one DeleteObject and wraps the error.
- The SDK itself is left out: LoadDefaultConfig, the endpoint resolver, the credentials provider, and PutObject, HeadObject and ListObjectsV2. Each call's outcome, or the page it returns, is an input.
- Context cancellation and timeouts are left out. They belong to the transport.
- Error messages and Go's `errors.As` unwrapping are left out. An SDK error is one of three kinds: structured not-found, API error with a code, or other. The client's errors only record which operation failed and the cause.
- `Spaces.Exists` takes only the probe's outcome. The HEAD request always names the client's bucket and the object key, and it is not recorded.
- `Spaces.Reader`: a caller's reader is an opaque token. The model does not read its content. The upload/download round trip needs a live store, and its test is skipped, so it is not modelled.
- `Text.ToLower` copies Go's lower-casing only for characters whose lower case is ASCII: A-Z, U+0130 and U+212A. It keeps every other character as it is. Every comparison in the client is against an ASCII pattern, so the inline decision does not depend on the rest.
- Strings are modelled as sequences of Unicode characters, while Go strings are bytes. Invalid UTF-8 is not modelled.
- `Listing.List` requires that the scripted store eventually ends the listing with a failure or a non-truncated page. The Go loop has no bound of its own and relies on the store for this.
- A store that reports a truncated page without a continuation token makes the next request identical to the first, so the listing starts over (`Listing.TruncatedWithoutToken` shows this). Whether that can loop forever depends on the store, and the model does not settle it.
