/**
 * helpers/helpers.go: list membership, existence checks, the request-context accessors and the
 * string handling around the blob store (content type, public URL, object path).
 */
module Helpers {
  import opened Wrappers
  import opened Models

  // ----- Contains -----

  /** `Contains`: a linear scan that returns as soon as it meets `item`. */
  method Contains(slice: seq<int>, item: int) returns (found: bool)
    ensures found <==> item in slice
  {
    for i := 0 to |slice|
      invariant item !in slice[..i]
    {
      if slice[i] == item {
        return true;
      }
    }
    return false;
  }

  // ----- CheckDataExist -----

  /** `CountDocuments`: how many documents of a collection satisfy the filter. */
  function CountDocuments<T>(docs: seq<T>, matches: T -> bool): (n: nat)
    ensures n <= |docs|
  {
    if docs == [] then 0
    else CountDocuments(docs[..|docs| - 1], matches) + (if matches(docs[|docs| - 1]) then 1 else 0)
  }

  lemma {:induction false} CountPositive<T>(docs: seq<T>, matches: T -> bool)
    ensures CountDocuments(docs, matches) > 0 <==> exists i :: 0 <= i < |docs| && matches(docs[i])
  {
    if docs != [] {
      var init := docs[..|docs| - 1];
      CountPositive(init, matches);
      if exists i :: 0 <= i < |init| && matches(init[i]) {
        var i :| 0 <= i < |init| && matches(init[i]);
        assert matches(docs[i]);
      }
      if exists i :: 0 <= i < |docs| && matches(docs[i]) {
        var i :| 0 <= i < |docs| && matches(docs[i]);
        if i < |init| {
          assert matches(init[i]);
        }
      }
    }
  }

  /** `CheckDataExist`: true exactly when some document satisfies the filter. */
  function CheckDataExist<T>(docs: seq<T>, matches: T -> bool): (found: bool)
    ensures found <==> exists i :: 0 <= i < |docs| && matches(docs[i])
  {
    CountPositive(docs, matches);
    CountDocuments(docs, matches) > 0
  }

  // ----- request context -----

  /** A value stored in the request context by the authentication middleware. */
  datatype CtxValue = CtxStr(s: string) | CtxInt(i: int) | CtxOther

  type Context = map<string, CtxValue>

  /** `GetUserIDFromMdw`: the caller's id, provided the context holds it as a string. */
  function GetUserIDFromMdw(ctx: Context): (r: Result<string, string>)
    ensures r.Ok? <==> "userId" in ctx && ctx["userId"].CtxStr?
    ensures r.Ok? ==> r.value == ctx["userId"].s
    ensures "userId" !in ctx ==> r == Err("user ID not found in request context")
  {
    if "userId" !in ctx then Err("user ID not found in request context")
    else if !ctx["userId"].CtxStr? then Err("invalid user ID format")
    else Ok(ctx["userId"].s)
  }

  const ErrNoDocuments: string := "mongo: no documents in result"

  /**
   * `GetCurrentUser`: the stored user whose `_id` is the context's `userId`; a decoded user whose
   * id is empty counts as not found.
   */
  function GetCurrentUser(ctx: Context, users: map<string, User>): (r: Result<User, string>)
    ensures r.Ok? <==> GetUserIDFromMdw(ctx).Ok? && GetUserIDFromMdw(ctx).value in users &&
                       users[GetUserIDFromMdw(ctx).value].userId != ""
    ensures r.Ok? ==> r.value == users[GetUserIDFromMdw(ctx).value] && r.value.userId != ""
  {
    match GetUserIDFromMdw(ctx)
    case Err(e) => Err(e)
    case Ok(id) =>
      if id !in users then Err(ErrNoDocuments)
      else if users[id].userId == "" then Err("user not found")
      else Ok(users[id])
  }

  /** Membership test on a restaurant's `members` list (its Go definition is not part of this model). */
  predicate IsRestaurantMember(members: seq<string>, id: string)
  {
    id in members
  }

  // ----- ParseFloat -----

  /** `ParseFloat`: the parsed amount, or 0 whenever the text does not parse. */
  function ParseFloat(value: string, parse: string -> Option<Money>): (r: Money)
    ensures parse(value).None? ==> r == 0
    ensures parse(value).Some? ==> r == parse(value).value
  {
    parse(value).GetOr(0)
  }

  // ----- strings.Split -----

  predicate OccursAt(s: string, sep: string, j: nat)
  {
    j + |sep| <= |s| && s[j..j + |sep|] == sep
  }

  /** The first position at or after `from` where `sep` occurs in `s`. */
  function IndexFrom(s: string, sep: string, from: nat): (r: Option<nat>)
    requires |sep| > 0
    ensures r.Some? ==> from <= r.value && OccursAt(s, sep, r.value)
    ensures r.Some? ==> forall j :: from <= j < r.value ==> !OccursAt(s, sep, j)
    ensures r.None? ==> forall j :: from <= j ==> !OccursAt(s, sep, j)
    decreases |s| - from
  {
    if from + |sep| > |s| then None
    else if s[from..from + |sep|] == sep then Some(from)
    else IndexFrom(s, sep, from + 1)
  }

  /** `strings.Split(s, sep)` for a non-empty separator: the pieces between its occurrences. */
  function Split(s: string, sep: string): (pieces: seq<string>)
    requires |sep| > 0
    ensures |pieces| >= 1
    decreases |s|
  {
    match IndexFrom(s, sep, 0)
    case None => [s]
    case Some(k) => [s[..k]] + Split(s[k + |sep|..], sep)
  }

  lemma SplitNoOccurrence(s: string, sep: string)
    requires |sep| > 0
    requires forall j :: 0 <= j ==> !OccursAt(s, sep, j)
    ensures Split(s, sep) == [s]
  {
  }

  /** Splitting at a first occurrence at `k` gives the text before it, then the pieces after it. */
  lemma SplitAtFirst(s: string, sep: string, k: nat)
    requires |sep| > 0 && OccursAt(s, sep, k)
    requires forall j :: 0 <= j < k ==> !OccursAt(s, sep, j)
    ensures Split(s, sep) == [s[..k]] + Split(s[k + |sep|..], sep)
  {
  }

  // ----- blob-store strings -----

  const UrlPrefix: string := "https://storage.googleapis.com/"

  /** The object's public URL that `UploadFileToFirebase` returns. */
  function PublicUrl(bucket: string, filename: string): string
  {
    UrlPrefix + bucket + "/" + filename
  }

  /**
   * `DeleteFileFromFirebase`'s object path: the second piece of the URL split at
   * `STORAGE_BUCKET + "/"`; the index fails when the separator does not occur.
   */
  function DeletePath(filePath: string, bucket: string): (r: Result<string, string>)
    ensures r.Ok? <==> exists j :: 0 <= j && OccursAt(filePath, bucket + "/", j)
  {
    var pieces := Split(filePath, bucket + "/");
    if |pieces| < 2 then
      SplitSingleMeansAbsent(filePath, bucket + "/");
      Err("index out of range [1] with length 1")
    else
      SplitManyMeansPresent(filePath, bucket + "/");
      Ok(pieces[1])
  }

  lemma SplitSingleMeansAbsent(s: string, sep: string)
    requires |sep| > 0 && |Split(s, sep)| < 2
    ensures forall j :: 0 <= j ==> !OccursAt(s, sep, j)
  {
  }

  lemma SplitManyMeansPresent(s: string, sep: string)
    requires |sep| > 0 && |Split(s, sep)| >= 2
    ensures exists j :: 0 <= j && OccursAt(s, sep, j)
  {
    var r := IndexFrom(s, sep, 0);
    assert r.Some?;
    assert OccursAt(s, sep, r.value);
  }

  /** The bucket's separator does not already occur inside the URL prefix and bucket name. */
  predicate SeparatorFirstAfterBucket(bucket: string)
  {
    forall j :: 0 <= j < |UrlPrefix| ==> !OccursAt(UrlPrefix + bucket + "/", bucket + "/", j)
  }

  /**
   * The path `DeleteFileFromFirebase` extracts from a URL built by `UploadFileToFirebase` is the
   * uploaded file name, when both used the same bucket, the separator does not occur earlier in
   * the URL and the file name does not contain it.
   */
  lemma {:induction false} DeletePathOfPublicUrl(bucket: string, filename: string)
    requires SeparatorFirstAfterBucket(bucket)
    requires forall j :: 0 <= j ==> !OccursAt(filename, bucket + "/", j)
    ensures DeletePath(PublicUrl(bucket, filename), bucket) == Ok(filename)
  {
    var sep := bucket + "/";
    var url := PublicUrl(bucket, filename);
    var k := |UrlPrefix|;
    assert url == (UrlPrefix + bucket + "/") + filename;
    assert url[k..k + |sep|] == sep;
    forall j | 0 <= j < k
      ensures !OccursAt(url, sep, j)
    {
      assert !OccursAt(UrlPrefix + bucket + "/", sep, j);
    }
    SplitAtFirst(url, sep, k);
    assert url[k + |sep|..] == filename;
    SplitNoOccurrence(filename, sep);
  }

  // ----- upload content type -----

  lemma OccursAtDot(s: string, j: nat)
    ensures OccursAt(s, ".", j) <==> j < |s| && s[j] == '.'
  {
    if j < |s| {
      assert s[j..j + 1] == [s[j]];
    }
  }

  lemma NoOccurrenceNoDot(s: string)
    requires forall j :: 0 <= j ==> !OccursAt(s, ".", j)
    ensures '.' !in s
  {
    forall j | 0 <= j < |s|
      ensures s[j] != '.'
    {
      OccursAtDot(s, j);
    }
  }

  /** A name whose first dot follows `prefix` splits into `prefix` and the pieces after that dot. */
  lemma SplitAtFirstDot(prefix: string, rest: string)
    requires '.' !in prefix
    ensures Split(prefix + "." + rest, ".") == [prefix] + Split(rest, ".")
  {
    var s := prefix + "." + rest;
    var k := |prefix|;
    forall j | 0 <= j < k
      ensures !OccursAt(s, ".", j)
    {
      OccursAtDot(s, j);
    }
    OccursAtDot(s, k);
    SplitAtFirst(s, ".", k);
    assert s[..k] == prefix && s[k + 1..] == rest;
  }

  /**
   * `UploadFileToFirebase`'s content type as written: `"image/"` followed by the second
   * `.`-separated piece of the file name; the index fails when the name has no dot.
   */
  function ContentType(filename: string): (r: Result<string, string>)
    ensures r.Ok? <==> '.' in filename
  {
    var pieces := Split(filename, ".");
    if |pieces| < 2 then
      SplitSingleMeansAbsent(filename, ".");
      NoOccurrenceNoDot(filename);
      Err("index out of range [1] with length 1")
    else
      SplitManyMeansPresent(filename, ".");
      var j :| 0 <= j && OccursAt(filename, ".", j);
      OccursAtDot(filename, j);
      Ok("image/" + pieces[1])
  }

  /**
   * A name with two dots gets the piece between them as its subtype, whatever follows the
   * second dot: "a.b.png" is sent as "image/b".
   */
  lemma {:induction false} ContentTypeTakesSecondPiece(stem: string, mid: string, ext: string)
    requires '.' !in stem && '.' !in mid
    ensures ContentType(stem + "." + mid + "." + ext) == Ok("image/" + mid)
  {
    assert stem + "." + mid + "." + ext == stem + "." + (mid + "." + ext);
    SplitAtFirstDot(stem, mid + "." + ext);
    SplitAtFirstDot(mid, ext);
  }

  /** The ordinary case: a name with exactly one dot is sent with the text after it as subtype. */
  lemma ContentTypeOfOneDot(stem: string, ext: string)
    requires '.' !in stem && '.' !in ext
    ensures ContentType(stem + "." + ext) == Ok("image/" + ext)
  {
    SplitAtFirstDot(stem, ext);
    forall j | 0 <= j
      ensures !OccursAt(ext, ".", j)
    {
      OccursAtDot(ext, j);
    }
    SplitNoOccurrence(ext, ".");
  }

  lemma ContentTypeExample()
    ensures ContentType("a.b.png") == Ok("image/b")
  {
    var stem, mid, ext := "a", "b", "png";
    assert '.' !in stem && '.' !in mid;
    ContentTypeTakesSecondPiece(stem, mid, ext);
    assert stem + "." + mid + "." + ext == "a.b.png";
    assert "image/" + mid == "image/b";
  }

  /** Position of the last `.` in `s`, if any. */
  function LastDot(s: string): (r: Option<nat>)
    ensures r.Some? ==> r.value < |s| && s[r.value] == '.' &&
                        forall j :: r.value < j < |s| ==> s[j] != '.'
    ensures r.None? <==> '.' !in s
  {
    if s == [] then None
    else if s[|s| - 1] == '.' then Some(|s| - 1)
    else LastDot(s[..|s| - 1])
  }

  /** The content type derived from the file extension, the text after the last dot. */
  function ExtensionContentType(filename: string): (r: Result<string, string>)
    ensures r.Ok? <==> '.' in filename
  {
    match LastDot(filename)
    case None => Err("file name has no extension")
    case Some(k) => Ok("image/" + filename[k + 1..])
  }

  /** Whatever precedes the final dot, the content type names the extension after it. */
  lemma ExtensionContentTypeOfName(stem: string, ext: string)
    requires '.' !in ext
    ensures ExtensionContentType(stem + "." + ext) == Ok("image/" + ext)
  {
    var s := stem + "." + ext;
    var k := |stem|;
    assert s[k] == '.';
    var r := LastDot(s);
    assert r.Some?;
    assert s[k + 1..] == ext;
  }
}
