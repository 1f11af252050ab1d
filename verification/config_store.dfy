/**
  The user configuration file (src/services/configStore.ts) as an abstract
  file state: missing, present but not parseable, or holding a decoded
  configuration. Every setter is a read-modify-write of the whole file, so a
  setter keeps what the other setter stored.
 */
module ConfigStore {
  import opened Wrappers

  datatype BotConfig = BotConfig(discordToken: string, clientId: string, guildId: string)

  datatype PortConfig = PortConfig(min: int, max: int)

  /** Both members are optional, as in the stored JSON object. */
  datatype AppConfig = AppConfig(bot: Option<BotConfig>, ports: Option<PortConfig>)

  const EmptyConfig := AppConfig(None, None)

  datatype ConfigFile = Missing | Unparseable | Stored(config: AppConfig)

  /** `loadConfig`: the stored configuration, or the empty one when the file is missing or does not parse. */
  function LoadConfig(f: ConfigFile): (c: AppConfig)
    ensures f.Stored? ==> c == f.config
    ensures !f.Stored? ==> c.bot.None? && c.ports.None?
  {
    match f
    case Stored(config) => config
    case _ => EmptyConfig
  }

  /** `saveConfig`: the file holds exactly this configuration afterwards. */
  function SaveConfig(c: AppConfig): (f: ConfigFile)
    ensures LoadConfig(f) == c
  {
    Stored(c)
  }

  function GetBotConfig(f: ConfigFile): Option<BotConfig> {
    LoadConfig(f).bot
  }

  /** `setBotConfig`: the bot part becomes `bot`; the port part is kept. */
  function SetBotConfig(f: ConfigFile, bot: BotConfig): (r: ConfigFile)
    ensures GetBotConfig(r) == Some(bot)
    ensures LoadConfig(r).ports == LoadConfig(f).ports
  {
    SaveConfig(LoadConfig(f).(bot := Some(bot)))
  }

  function GetPortConfig(f: ConfigFile): Option<PortConfig> {
    LoadConfig(f).ports
  }

  /** `setPortConfig`: the port part becomes `ports`; the bot part is kept. */
  function SetPortConfig(f: ConfigFile, ports: PortConfig): (r: ConfigFile)
    ensures GetPortConfig(r) == Some(ports)
    ensures GetBotConfig(r) == GetBotConfig(f)
  {
    SaveConfig(LoadConfig(f).(ports := Some(ports)))
  }

  /** `hasBotConfig`: a bot part whose token, client id and guild id are all non-empty. */
  function HasBotConfig(f: ConfigFile): (r: bool)
    ensures r <==> && GetBotConfig(f).Some?
                   && GetBotConfig(f).value.discordToken != ""
                   && GetBotConfig(f).value.clientId != ""
                   && GetBotConfig(f).value.guildId != ""
  {
    match GetBotConfig(f)
    case None => false
    case Some(bot) => bot.discordToken != "" && bot.clientId != "" && bot.guildId != ""
  }

  /** `clearBotConfig`: only the bot part goes. */
  function ClearBotConfig(f: ConfigFile): (r: ConfigFile)
    ensures GetBotConfig(r).None? && !HasBotConfig(r)
    ensures GetPortConfig(r) == GetPortConfig(f)
  {
    SaveConfig(LoadConfig(f).(bot := None))
  }

  /**
    The setters commute and the last write of each part wins: setting the bot
    and the ports in either order gives the same file, and a second bot
    setting replaces the first.
   */
  lemma SettersCommute(f: ConfigFile, bot: BotConfig, bot2: BotConfig, ports: PortConfig)
    ensures SetPortConfig(SetBotConfig(f, bot), ports) == SetBotConfig(SetPortConfig(f, ports), bot)
    ensures SetBotConfig(SetBotConfig(f, bot), bot2) == SetBotConfig(f, bot2)
    ensures ClearBotConfig(SetBotConfig(f, bot)) == ClearBotConfig(f)
  {
  }

  /** Storing a complete bot configuration makes the wizard's "already configured" check hold. */
  lemma SetMakesConfigured(f: ConfigFile, bot: BotConfig)
    ensures HasBotConfig(SetBotConfig(f, bot)) <==> bot.discordToken != "" && bot.clientId != "" && bot.guildId != ""
  {
  }

  /** A file that does not parse is replaced on the next write: only the written part survives. */
  lemma UnparseableIsReplaced(bot: BotConfig, ports: PortConfig)
    ensures SetBotConfig(Unparseable, bot) == Stored(AppConfig(Some(bot), None))
    ensures SetPortConfig(Unparseable, ports) == Stored(AppConfig(None, Some(ports)))
    ensures LoadConfig(Unparseable) == LoadConfig(Missing) == EmptyConfig
  {
  }
}
