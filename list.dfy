/** `List` of list.go: the pagination loop over ListObjectsV2. The store is
    a script: the answer it gives to the first, second, ... request. */
module Listing {
  import opened Outcomes
  import opened Spaces

  /** One page of a listing: the key of each entry (a nil key is `None`),
      the truncation flag and the continuation token, each of which may be nil. */
  datatype ListPage = ListPage(
    contents: seq<Option<string>>,
    isTruncated: Option<bool>,
    nextContinuationToken: Option<string>)

  /** What the store answers to one listing request. */
  type PageResult = Result<ListPage, SdkError>

  /** The fields of `ListObjectsV2Input` that the client sets. */
  datatype ListObjectsRequest = ListObjectsRequest(
    bucket: string,
    continuationToken: Option<string>,
    prefix: Option<string>)

  /** The keys of the entries that have one, in page order. */
  function PresentKeys(contents: seq<Option<string>>): (keys: seq<string>)
    ensures |keys| <= |contents|
  {
    if contents == [] then []
    else
      var last := contents[|contents| - 1];
      PresentKeys(contents[..|contents| - 1]) + (if last.Some? then [last.value] else [])
  }

  /** A key is listed exactly when some entry carries it. */
  lemma {:induction false} PresentKeysMembers(contents: seq<Option<string>>, key: string)
    ensures key in PresentKeys(contents) <==> Some(key) in contents
  {
    if contents != [] {
      var init := contents[..|contents| - 1];
      PresentKeysMembers(init, key);
      assert contents == init + [contents[|contents| - 1]];
    }
  }

  /** Skipping keyless entries keeps the order: the keys of two runs of
      entries are the keys of the first followed by those of the second. */
  lemma {:induction false} PresentKeysAppend(a: seq<Option<string>>, b: seq<Option<string>>)
    ensures PresentKeys(a + b) == PresentKeys(a) + PresentKeys(b)
  {
    if b == [] {
      assert a + b == a;
    } else {
      var init := b[..|b| - 1];
      PresentKeysAppend(a, init);
      assert (a + b)[..|a + b| - 1] == a + init;
      assert (a + b)[|a + b| - 1] == b[|b| - 1];
    }
  }

  /** When every entry has a key, nothing is skipped. */
  lemma {:induction false} PresentKeysAllPresent(contents: seq<Option<string>>)
    requires forall i :: 0 <= i < |contents| ==> contents[i].Some?
    ensures |PresentKeys(contents)| == |contents|
    ensures forall i :: 0 <= i < |contents| ==> PresentKeys(contents)[i] == contents[i].value
  {
    if contents != [] {
      PresentKeysAllPresent(contents[..|contents| - 1]);
    }
  }

  /** The store says there is another page after this one. */
  predicate Continues(r: PageResult) {
    r.Success? && r.value.isTruncated == Some(true)
  }

  /** The index of the answer that ends the listing: the first failure or
      the first page whose truncation flag is nil or false. `|script|` when
      the script never ends the listing. */
  function StopIndex(script: seq<PageResult>): (n: nat)
    ensures n <= |script|
    ensures forall j :: 0 <= j < n ==> Continues(script[j])
    ensures n < |script| ==> !Continues(script[n])
  {
    if script == [] || !Continues(script[0]) then 0
    else 1 + StopIndex(script[1..])
  }

  /** The keys one answer contributes: those of a page, none for a failure. */
  function PageKeys(r: PageResult): seq<string> {
    if r.Success? then PresentKeys(r.value.contents) else []
  }

  /** The keys of the pages in a run of answers, in page order. */
  function KeysOf(pages: seq<PageResult>): (keys: seq<string>)
  {
    if pages == [] then [] else KeysOf(pages[..|pages| - 1]) + PageKeys(pages[|pages| - 1])
  }

  /** The answer is a page with an entry carrying `key`. */
  predicate PageHolds(r: PageResult, key: string) {
    r.Success? && Some(key) in r.value.contents
  }

  /** A key is in the listing exactly when some page that was fetched has an entry carrying it. */
  lemma {:induction false} KeysOfMembers(pages: seq<PageResult>, key: string)
    ensures key in KeysOf(pages) <==> exists j :: 0 <= j < |pages| && PageHolds(pages[j], key)
  {
    if pages != [] {
      var n := |pages| - 1;
      var init := pages[..n];
      var last := pages[n];
      KeysOfMembers(init, key);
      if last.Success? {
        PresentKeysMembers(last.value.contents, key);
      }
      assert key in PageKeys(last) <==> PageHolds(last, key);
      if key in KeysOf(init) {
        var j :| 0 <= j < |init| && PageHolds(init[j], key);
        assert pages[j] == init[j];
      }
      if exists j :: 0 <= j < |pages| && PageHolds(pages[j], key) {
        var j :| 0 <= j < |pages| && PageHolds(pages[j], key);
        if j < n {
          assert init[j] == pages[j];
        }
      }
    }
  }

  /** One more answer adds its own keys at the end. */
  lemma KeysOfSnoc(pages: seq<PageResult>, r: PageResult)
    ensures KeysOf(pages + [r]) == KeysOf(pages) + PageKeys(r)
  {
    assert (pages + [r])[..|pages|] == pages;
  }

  /** The request the loop sends with a given continuation token. */
  function ListRequest(bucket: string, prefix: string, token: Option<string>): (r: ListObjectsRequest)
    ensures r.bucket == bucket && r.continuationToken == token
    ensures r.prefix.Some? <==> prefix != ""
    ensures r.prefix.Some? ==> r.prefix.value == prefix
  {
    ListObjectsRequest(bucket, token, if prefix != "" then Some(prefix) else None)
  }

  /** The continuation token `List` holds before its request number `k`: none
      before the first, then the one the previous page carried. */
  function TokenBefore(script: seq<PageResult>, k: nat): Option<string>
    requires k <= |script|
  {
    if k == 0 || script[k - 1].Failure? then None else script[k - 1].value.nextContinuationToken
  }

  /** The first `count` requests `List` sends. */
  function SentRequests(bucket: string, prefix: string, script: seq<PageResult>, count: nat): (rs: seq<ListObjectsRequest>)
    requires count <= |script|
    ensures |rs| == count
  {
    if count == 0 then []
    else SentRequests(bucket, prefix, script, count - 1) + [ListRequest(bucket, prefix, TokenBefore(script, count - 1))]
  }

  /** Every request names the bucket, and the prefix iff it is non-empty; the
      first carries no token and each later one the token of the page before. */
  lemma {:induction false} SentRequestsChain(bucket: string, prefix: string, script: seq<PageResult>, count: nat)
    requires count <= |script|
    ensures forall k :: 0 <= k < count ==>
              SentRequests(bucket, prefix, script, count)[k].bucket == bucket &&
              SentRequests(bucket, prefix, script, count)[k].prefix == (if prefix != "" then Some(prefix) else None)
    ensures count > 0 ==> SentRequests(bucket, prefix, script, count)[0].continuationToken.None?
    ensures forall k :: 0 <= k < count - 1 && script[k].Success? ==>
              SentRequests(bucket, prefix, script, count)[k + 1].continuationToken == script[k].value.nextContinuationToken
  {
    if count > 0 {
      SentRequestsChain(bucket, prefix, script, count - 1);
      var rs := SentRequests(bucket, prefix, script, count);
      assert rs == SentRequests(bucket, prefix, script, count - 1) + [ListRequest(bucket, prefix, TokenBefore(script, count - 1))];
    }
  }

  /** The inner loop of `List`: appends the key of every entry that has one. */
  method AppendPresentKeys(keys: seq<string>, contents: seq<Option<string>>) returns (r: seq<string>)
    ensures r == keys + PresentKeys(contents)
  {
    r := keys;
    for j := 0 to |contents|
      invariant r == keys + PresentKeys(contents[..j])
    {
      if contents[j].Some? {
        r := r + [contents[j].value];
      }
      assert contents[..j + 1][..j] == contents[..j];
    }
    assert contents[..|contents|] == contents;
  }

  /** `List`: fetches pages until the store stops, gathering keys. `script[i]`
      is the store's answer to the i-th request; the store is assumed to end
      the listing at some point, as S3 does. Returns the result and every
      request sent, in order. */
  method List(c: Client, prefix: string, script: seq<PageResult>)
    returns (result: Result<seq<string>, Error>, requests: seq<ListObjectsRequest>)
    requires StopIndex(script) < |script|
    ensures requests == SentRequests(c.bucket, prefix, script, StopIndex(script) + 1)
    ensures script[StopIndex(script)].Failure? ==>
              result == Failure(ListFailed(script[StopIndex(script)].error))
    ensures script[StopIndex(script)].Success? ==>
              result == Success(KeysOf(script[..StopIndex(script) + 1]))
  {
    ghost var n := StopIndex(script);
    var keys: seq<string> := [];
    var token: Option<string> := None;
    var i := 0;
    requests := [];
    while true
      invariant i <= n
      invariant requests == SentRequests(c.bucket, prefix, script, i)
      invariant token == TokenBefore(script, i)
      invariant keys == KeysOf(script[..i])
      decreases |script| - i
    {
      var input := ListObjectsRequest(c.bucket, token, None);
      if prefix != "" {
        input := input.(prefix := Some(prefix));
      }
      requests := requests + [input];
      var answer := script[i];
      if answer.Failure? {
        return Failure(ListFailed(answer.error)), requests;
      }
      keys := AppendPresentKeys(keys, answer.value.contents);
      assert script[..i + 1] == script[..i] + [answer];
      KeysOfSnoc(script[..i], answer);
      if answer.value.isTruncated.None? || !answer.value.isTruncated.value {
        break;
      }
      token := answer.value.nextContinuationToken;
      i := i + 1;
    }
    result := Success(keys);
  }

  /** The two-page listing: two keys, truncated with token "T"; then one key, not truncated. */
  method TwoPageListing(c: Client) {
    var first := ListPage([Some("a"), Some("b")], Some(true), Some("T"));
    var second := ListPage([Some("c")], Some(false), None);
    var script: seq<PageResult> := [Success(first), Success(second)];
    assert StopIndex(script) == 1 by {
      assert Continues(script[0]) && !Continues(script[1]);
    }
    var result, requests := List(c, "photos/", script);
    assert script[StopIndex(script)].Success?;
    assert result == Success(KeysOf(script[..2]));
    assert |requests| == 2;
    assert requests[0].continuationToken == None && requests[1].continuationToken == Some("T");
    assert requests[1].prefix == Some("photos/");
    assert script[..2] == script;
    assert [Some("a"), Some("b")][..1] == [Some("a")];
    assert PresentKeys(first.contents) == ["a", "b"];
    assert script[..1] == [Success(first)] && script[..1][..0] == [];
    assert KeysOf(script[..1]) == ["a", "b"];
    assert script[..2][..1] == script[..1];
    assert PresentKeys(second.contents) == ["c"];
    assert KeysOf(script[..2]) == KeysOf(script[..1]) + PresentKeys(second.contents);
    assert ["a", "b"] + ["c"] == ["a", "b", "c"];
    assert result == Success(["a", "b", "c"]);
  }

  /** An entry without a key is skipped without failing the listing, and a
      page with no truncation flag ends it. */
  method KeylessEntryListing(c: Client) {
    var page := ListPage([Some("a"), None, Some("b")], None, None);
    var script: seq<PageResult> := [Success(page)];
    var result, requests := List(c, "", script);
    assert requests == [ListObjectsRequest(c.bucket, None, None)];
    assert script[..1] == script && script[..1][..0] == [];
    assert page.contents[..2][..1] == [Some("a")];
    assert PresentKeys(page.contents[..2]) == ["a"];
    assert page.contents[..|page.contents| - 1] == page.contents[..2];
    assert ["a"] + [] + ["b"] == ["a", "b"];
    assert PresentKeys(page.contents) == ["a", "b"];
    assert KeysOf(script[..1]) == KeysOf(script[..0]) + PresentKeys(page.contents);
    assert [] + ["a", "b"] == ["a", "b"];
    assert result == Success(["a", "b"]);
  }

  /** A failure on a later page discards the keys already gathered. */
  method FailedSecondPage(c: Client) {
    var first := ListPage([Some("a")], Some(true), Some("T"));
    var script: seq<PageResult> := [Success(first), Failure(OtherError)];
    assert StopIndex(script) == 1 by {
      assert Continues(script[0]) && !Continues(script[1]);
    }
    var result, requests := List(c, "", script);
    assert result == Failure(ListFailed(OtherError));
    assert |requests| == 2;
  }

  /** A page that claims truncation but carries no token makes the next request
      identical to the first: the listing starts over from the beginning. */
  method TruncatedWithoutToken(c: Client) {
    var first := ListPage([Some("a")], Some(true), None);
    var second := ListPage([Some("a")], Some(false), None);
    var script: seq<PageResult> := [Success(first), Success(second)];
    assert StopIndex(script) == 1 by {
      assert Continues(script[0]) && !Continues(script[1]);
    }
    var result, requests := List(c, "", script);
    assert requests[1] == requests[0];
    assert script[..2] == script;
    assert script[..1] == [Success(first)] && script[..1][..0] == [];
    assert PresentKeys(first.contents) == ["a"];
    assert KeysOf(script[..1]) == ["a"];
    assert script[..2][..1] == script[..1];
    assert KeysOf(script[..2]) == KeysOf(script[..1]) + PresentKeys(second.contents);
    assert ["a"] + ["a"] == ["a", "a"];
    assert result == Success(["a", "a"]);
  }
}
