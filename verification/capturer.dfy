/** The screenshot capturer's transport form: an encoded screenshot travels
    to the model as an inline `data:` image URL. The encoding of the image
    bytes itself is opaque here; a screenshot is its encoded token. */
module Capturer {
  import opened Wrappers
  import opened Config

  /** The inline image URL carrying screenshot `token`. */
  function ImageUrl(token: string): (url: string)
    ensures |url| == |ImageUrlPrefix| + |token|
    ensures url[..|ImageUrlPrefix|] == ImageUrlPrefix
    ensures url[|ImageUrlPrefix|..] == token
  {
    ImageUrlPrefix + token
  }

  /** The screenshot token an image URL carries, if it has the expected prefix. */
  function TokenOf(url: string): (token: Option<string>)
    ensures token.Some? <==> ImageUrlPrefix <= url
  {
    if ImageUrlPrefix <= url then Some(url[|ImageUrlPrefix|..]) else None
  }

  /** Decoding an image URL gives back the screenshot it was built from. */
  lemma {:induction false} TokenOfImageUrl(token: string)
    ensures TokenOf(ImageUrl(token)) == Some(token)
  {
  }

  /** Every URL that decodes to a token is the image URL of that token. */
  lemma {:induction false} ImageUrlOfToken(url: string, token: string)
    requires TokenOf(url) == Some(token)
    ensures ImageUrl(token) == url
  {
    assert url == url[..|ImageUrlPrefix|] + url[|ImageUrlPrefix|..];
  }

  /** Different screenshots give different image URLs. */
  lemma {:induction false} ImageUrlInjective(a: string, b: string)
    requires ImageUrl(a) == ImageUrl(b)
    ensures a == b
  {
    TokenOfImageUrl(a);
    TokenOfImageUrl(b);
  }
}
