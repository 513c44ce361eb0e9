/** The tweet record of twitter/model/Tweet.java: its preview, validity
    check, status URL, and the equality and hash code that identify a
    tweet by its id and author alone. */
module Tweets {
  import opened Wrappers
  import opened Text

  /** A tweet as its fields hold it; None is a null reference and times
      are seconds on an injected clock. */
  datatype Tweet = Tweet(
    id: Option<string>,
    username: Option<string>,
    content: Option<string>,
    url: Option<string>,
    publishTime: Option<int>,
    detectTime: Option<int>,
    retweets: int,
    likes: int,
    replies: int)

  const UrlPrefix: string := "https://twitter.com/"
  const StatusPart: string := "/status/"
  const NoContent: string := "[无内容]"
  const PreviewLength: nat := 100
  const Ellipsis: string := "..."

  /** How "%s" prints a string reference. */
  function RefText(s: Option<string>): string {
    match s
    case Some(t) => t
    case None => "null"
  }

  /** generateUrl: the status page of a tweet. */
  function GenerateUrl(username: Option<string>, id: Option<string>): string {
    UrlPrefix + RefText(username) + StatusPart + RefText(id)
  }

  /** new Tweet(id, username, content) at time `now`: detected now, with its
      status URL, no publish time and no counters. */
  function NewTweet(id: Option<string>, username: Option<string>, content: Option<string>, now: int): (t: Tweet)
    ensures t.id == id && t.username == username && t.content == content
    ensures t.url == Some(GenerateUrl(username, id)) && t.detectTime == Some(now)
    ensures t.publishTime.None? && t.retweets == 0 && t.likes == 0 && t.replies == 0
  {
    Tweet(id, username, content, Some(GenerateUrl(username, id)), None, Some(now), 0, 0, 0)
  }

  /** The status URL of a tweet whose author's name has no '/' gives back
      the author and the id: the URL identifies the tweet. */
  lemma GenerateUrlInjective(u1: string, i1: string, u2: string, i2: string)
    requires forall k :: 0 <= k < |u1| ==> u1[k] != '/'
    requires forall k :: 0 <= k < |u2| ==> u2[k] != '/'
    requires GenerateUrl(Some(u1), Some(i1)) == GenerateUrl(Some(u2), Some(i2))
    ensures u1 == u2 && i1 == i2
  {
    var rest1 := u1 + StatusPart + i1;
    var rest2 := u2 + StatusPart + i2;
    UrlSplits(u1, i1);
    UrlSplits(u2, i2);
    assert rest1 == rest2;
    IndexOfAfter(u1, StatusPart, i1);
    IndexOfAfter(u2, StatusPart, i2);
    SplitAround(u1, StatusPart, i1);
    SplitAround(u2, StatusPart, i2);
  }

  /** The URL is the prefix followed by the author, the marker and the id. */
  lemma UrlSplits(u: string, i: string)
    ensures GenerateUrl(Some(u), Some(i))[|UrlPrefix|..] == u + StatusPart + i
  {
    assert GenerateUrl(Some(u), Some(i)) == UrlPrefix + (u + StatusPart + i);
  }

  /** The parts of a + w + b can be cut back out. */
  lemma SplitAround(a: string, w: string, b: string)
    ensures (a + w + b)[..|a|] == a && (a + w + b)[|a| + |w|..] == b
  {
  }

  /** getPreview: a placeholder for missing or empty content, the content
      itself up to 100 characters, and otherwise its first 100 characters
      and an ellipsis. */
  function Preview(content: Option<string>): (r: string)
  {
    if content.None? || content.value == [] then NoContent
    else if |content.value| > PreviewLength then content.value[..PreviewLength] + Ellipsis
    else content.value
  }

  /** A preview is never longer than 103 characters and is never empty;
      it shows the content whole when that fits, and otherwise begins with
      the first 100 characters of the content and ends in "...". */
  lemma PreviewShape(content: Option<string>)
    ensures 0 < |Preview(content)| <= PreviewLength + |Ellipsis|
    ensures content.Some? && 0 < |content.value| <= PreviewLength ==> Preview(content) == content.value
    ensures content.Some? && |content.value| > PreviewLength ==>
      StartsWith(content.value, Preview(content)[..PreviewLength]) && EndsWith(Preview(content), Ellipsis)
  {
    if content.Some? && |content.value| > PreviewLength {
      var r := Preview(content);
      assert r[..PreviewLength] == content.value[..PreviewLength];
      assert r[|r| - |Ellipsis|..] == Ellipsis;
    }
  }

  /** isValid: a tweet needs a non-empty id and a non-empty author. */
  predicate IsValid(t: Tweet) {
    t.id.Some? && t.id.value != [] && t.username.Some? && t.username.value != []
  }

  /** A freshly built tweet is valid exactly when both its id and author
      are given and non-empty; its content plays no part. */
  lemma NewTweetValid(id: Option<string>, username: Option<string>, content: Option<string>, now: int)
    ensures IsValid(NewTweet(id, username, content, now)) <==>
      (id.Some? && |id.value| > 0 && username.Some? && |username.value| > 0)
  {
  }

  /** equals: two tweets are equal when their ids and authors are. */
  predicate Equals(a: Tweet, b: Tweet) {
    a.id == b.id && a.username == b.username
  }

  /** Java's int arithmetic: x wrapped into [-2^31, 2^31). */
  function Wrap32(x: int): (r: int)
    ensures -0x8000_0000 <= r < 0x8000_0000
    ensures (r - x) % 0x1_0000_0000 == 0
  {
    (x + 0x8000_0000) % 0x1_0000_0000 - 0x8000_0000
  }

  /** String.hashCode: h = 31 * h + c over the chars, in int arithmetic. */
  function StringHash(s: string): int {
    if s == [] then 0 else Wrap32(31 * StringHash(s[..|s| - 1]) + s[|s| - 1] as int)
  }

  /** Objects.hashCode: 0 for null. */
  function RefHash(s: Option<string>): int {
    match s
    case Some(t) => StringHash(t)
    case None => 0
  }

  /** hashCode: Objects.hash(id, username), that is 31 * (31 * 1 +
      hash(id)) + hash(username) in int arithmetic. */
  function HashCode(t: Tweet): (r: int)
    ensures -0x8000_0000 <= r < 0x8000_0000
  {
    Wrap32(31 * Wrap32(31 + RefHash(t.id)) + RefHash(t.username))
  }

  /** equals is an equivalence relation, and it agrees with hashCode as
      Object's contract demands: equal tweets hash alike. */
  lemma EqualsContract(a: Tweet, b: Tweet, c: Tweet)
    ensures Equals(a, a)
    ensures Equals(a, b) ==> Equals(b, a)
    ensures Equals(a, b) && Equals(b, c) ==> Equals(a, c)
    ensures Equals(a, b) ==> HashCode(a) == HashCode(b)
  {
  }

  /** Content, URL, times and counters play no part in equality or hashing. */
  lemma IdentityIgnoresContent(t: Tweet, content: Option<string>, url: Option<string>, likes: int, retweets: int, replies: int)
    ensures var u := t.(content := content, url := url, likes := likes, retweets := retweets, replies := replies);
      Equals(t, u) && HashCode(t) == HashCode(u)
  {
  }

  /** Wrapping at every step of the hash gives the same int as computing
      the polynomial exactly and wrapping once at the end. */
  lemma {:induction false} StringHashIsPolynomial(s: string)
    ensures StringHash(s) == Wrap32(Polynomial(s))
  {
    if s != [] {
      var init := s[..|s| - 1];
      StringHashIsPolynomial(init);
      WrapLinear(Polynomial(init), 31, s[|s| - 1] as int);
    }
  }

  /** The exact value of sum of c_i * 31^(n-1-i). */
  function Polynomial(s: string): int {
    if s == [] then 0 else 31 * Polynomial(s[..|s| - 1]) + s[|s| - 1] as int
  }

  /** Wrapping the inner term of k * x + c changes nothing after the outer
      wrap. */
  lemma WrapLinear(x: int, k: int, c: int)
    ensures Wrap32(k * Wrap32(x) + c) == Wrap32(k * x + c)
  {
    var m := 0x1_0000_0000;
    var w := Wrap32(x);
    var q := (w - x) / m;
    assert w - x == q * m;
    assert k * w + c == (k * x + c) + (k * q) * m;
    ShiftByMultiple(k * x + c, k * q);
  }

  /** Adding a multiple of 2^32 does not change the wrapped value. */
  lemma ShiftByMultiple(y: int, q: int)
    ensures Wrap32(y + q * 0x1_0000_0000) == Wrap32(y)
  {
    var m := 0x1_0000_0000;
    var a := y + 0x8000_0000;
    assert (a + q * m) % m == a % m by {
      assert a + q * m == (a % m) + (a / m + q) * m;
    }
  }
}
