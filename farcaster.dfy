/**
  The pure parts of the Farcaster SDK wrappers: the options that
  `composeCast` hands to the SDK, and the profile URL that `openProfile`
  opens.
*/
module Farcaster {
  import opened Js

  /** The options passed to `sdk.actions.composeCast`: the text and, when
      set, a list of one or two embed URLs. */
  datatype CastOptions = CastOptions(text: string, embeds: Option<seq<string>>)

  /** `composeCast(text, embeds)`: no embeds field for a missing or empty
      list, otherwise the first one or two embeds; the rest are dropped. */
  function ComposeCastOptions(text: string, embeds: Option<seq<string>>): (options: CastOptions)
    ensures options.text == text
    ensures options.embeds.None? <==> embeds.None? || |embeds.value| == 0
    ensures options.embeds.Some? ==>
      && 1 <= |options.embeds.value| <= 2
      && options.embeds.value == embeds.value[..Min(2, |embeds.value|)]
  {
    var castOptions := CastOptions(text, None);
    if embeds.Some? && |embeds.value| > 0 then
      if |embeds.value| == 1 then castOptions.(embeds := Some([embeds.value[0]]))
      else castOptions.(embeds := Some([embeds.value[0], embeds.value[1]]))
    else castOptions
  }

  const ProfileUrlPrefix := "https://warpcast.com/~/profiles/"

  /** `https://warpcast.com/~/profiles/${fid}`. */
  function ProfileUrl(fid: int): (url: string)
    ensures StartsWith(url, ProfileUrlPrefix) && |url| > |ProfileUrlPrefix|
  {
    ProfileUrlPrefix + IntToDecimal(fid)
  }

  /** The profile URL starts with the fixed prefix and the fid can be read
      back from the rest, so distinct fids give distinct URLs. */
  lemma ProfileUrlNamesFid(fid: int)
    ensures StartsWith(ProfileUrl(fid), ProfileUrlPrefix)
    ensures ParseInt(ProfileUrl(fid)[|ProfileUrlPrefix|..]) == Some(fid)
  {
    assert ProfileUrl(fid)[|ProfileUrlPrefix|..] == IntToDecimal(fid);
    IntToDecimalRoundTrip(fid);
  }

  lemma ProfileUrlInjective(a: int, b: int)
    ensures ProfileUrl(a) == ProfileUrl(b) ==> a == b
  {
    ProfileUrlNamesFid(a);
    ProfileUrlNamesFid(b);
  }
}
