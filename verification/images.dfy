/** The part of the image service the screens use without the network. */
module Images {
  import opened Text

  const AvatarBase := "https://api.dicebear.com/7.x/avataaars/svg?seed="

  /** `getDefaultAvatarUrl`: a generated avatar seeded by the user id. */
  function DefaultAvatarUrl(uid: string): (url: string)
    ensures StartsWith(url, AvatarBase) && url[|AvatarBase|..] == uid
  {
    AvatarBase + uid
  }
}
