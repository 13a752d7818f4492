/** `UserInfo` of src/models/user.rs: the author facts the context keeps. */
module Users {
  import opened Wrappers
  import opened Text
  import DiscordModel

  datatype UserInfo = UserInfo(id: U64, username: string, nickname: Option<string>, avatarUrl: Option<string>, isBot: bool)

  /** `from_discord_user`: a copy of the Discord user's facts, with no
      nickname yet. */
  function FromDiscordUser(user: DiscordModel.DiscordUser): (u: UserInfo)
    ensures u.id == user.id && u.username == user.name && u.isBot == user.bot
    ensures u.avatarUrl == user.avatarUrl
    ensures u.nickname == None
  {
    UserInfo(user.id, user.name, None, user.avatarUrl, user.bot)
  }

  /** `with_nickname`: sets the nickname and nothing else. */
  function WithNickname(u: UserInfo, nickname: string): (r: UserInfo)
    ensures r.nickname == Some(nickname)
    ensures r.id == u.id && r.username == u.username && r.avatarUrl == u.avatarUrl && r.isBot == u.isBot
  {
    u.(nickname := Some(nickname))
  }

  /** A second nickname replaces the first; naming yourself once is the
      same as being named then renamed. */
  lemma LastNicknameWins(u: UserInfo, first: string, second: string)
    ensures WithNickname(WithNickname(u, first), second) == WithNickname(u, second)
  {
  }

  /** A user converted and then nicknamed is the Discord user's facts plus
      exactly that nickname. */
  lemma NicknamedDiscordUser(user: DiscordModel.DiscordUser, nickname: string)
    ensures WithNickname(FromDiscordUser(user), nickname)
         == UserInfo(user.id, user.name, Some(nickname), user.avatarUrl, user.bot)
  {
  }
}
