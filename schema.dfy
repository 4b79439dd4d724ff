/** The records the server stores, with the fields of the shared table
    declarations. A field the insert object may leave out is an `Option`: the
    in-memory store keeps records exactly as they were given and applies none of
    the table defaults. Times are milliseconds from an injected clock. */
module Schema {
  import opened Text

  datatype User = User(id: int, username: string, password: string,
                       displayName: Option<string>, role: Option<string>)

  datatype InsertUser = InsertUser(username: string, password: string,
                                   displayName: Option<string>, role: Option<string>)

  /** A command-history record; `status` is "pending", "success" or "error" as
      the clients write it. */
  datatype CommandRecord = CommandRecord(id: int, userId: Option<int>, command: string,
                                         response: Option<string>, status: Option<string>,
                                         timestamp: int)

  datatype InsertCommand = InsertCommand(userId: Option<int>, command: string,
                                         response: Option<string>, status: Option<string>)

  /** The body a client posts to record a command before it is handled. */
  function PendingRecord(userId: int, command: string): InsertCommand {
    InsertCommand(Some(userId), command, None, Some("pending"))
  }

  /** The body a client posts to record how a command ended. */
  function SettledRecord(userId: int, command: string, response: string, succeeded: bool): InsertCommand {
    InsertCommand(Some(userId), command, Some(response), Some(if succeeded then "success" else "error"))
  }

  datatype VoiceSettings = VoiceSettings(id: int, userId: int, wakeWord: Option<string>,
                                         sensitivity: Option<int>, voiceResponse: Option<bool>,
                                         continuousListening: Option<bool>,
                                         voiceLanguage: Option<string>)

  datatype InsertSettings = InsertSettings(userId: int, wakeWord: Option<string>,
                                           sensitivity: Option<int>, voiceResponse: Option<bool>,
                                           continuousListening: Option<bool>,
                                           voiceLanguage: Option<string>)

  /** A `Partial<InsertVoiceSettings>`: `None` is a key the caller left out; a
      nullable column may also be given `Some(None)`, an explicit `null`. */
  datatype SettingsPatch = SettingsPatch(userId: Option<int>, wakeWord: Option<Option<string>>,
                                         sensitivity: Option<Option<int>>,
                                         voiceResponse: Option<Option<bool>>,
                                         continuousListening: Option<Option<bool>>,
                                         voiceLanguage: Option<Option<string>>)

  datatype QuickCommand = QuickCommand(id: int, userId: Option<int>, commandText: string,
                                       icon: Option<string>, sortOrder: int)

  datatype InsertQuickCommand = InsertQuickCommand(userId: Option<int>, commandText: string,
                                                   icon: Option<string>, sortOrder: int)

  datatype QuickCommandPatch = QuickCommandPatch(userId: Option<Option<int>>,
                                                 commandText: Option<string>,
                                                 icon: Option<Option<string>>,
                                                 sortOrder: Option<int>)

  datatype ErpConnection = ErpConnection(id: int, userId: int, url: string, apiKey: string,
                                         apiSecret: string, isActive: Option<bool>,
                                         lastConnected: int)

  datatype InsertConnection = InsertConnection(userId: int, url: string, apiKey: string,
                                               apiSecret: string, isActive: Option<bool>)

  /** A `Partial<InsertErpConnection>`; `isActive` may be given as `null`. */
  datatype ConnectionPatch = ConnectionPatch(userId: Option<int>, url: Option<string>,
                                             apiKey: Option<string>, apiSecret: Option<string>,
                                             isActive: Option<Option<bool>>)

  /** `{ ...v, ...p }` for one field: a supplied key wins. */
  function Pick<T>(supplied: Option<T>, kept: T): T {
    if supplied.Some? then supplied.value else kept
  }

  /** `{ ...existing, ...patch }` on voice settings. */
  function MergeSettings(s: VoiceSettings, p: SettingsPatch): (r: VoiceSettings)
    ensures r.id == s.id
    ensures p.userId.Some? ==> r.userId == p.userId.value
    ensures p.userId.None? ==> r.userId == s.userId
    ensures p.wakeWord.Some? ==> r.wakeWord == p.wakeWord.value
    ensures p.wakeWord.None? ==> r.wakeWord == s.wakeWord
    ensures p.sensitivity.Some? ==> r.sensitivity == p.sensitivity.value
    ensures p.sensitivity.None? ==> r.sensitivity == s.sensitivity
    ensures p.voiceResponse.Some? ==> r.voiceResponse == p.voiceResponse.value
    ensures p.voiceResponse.None? ==> r.voiceResponse == s.voiceResponse
    ensures p.continuousListening.Some? ==> r.continuousListening == p.continuousListening.value
    ensures p.continuousListening.None? ==> r.continuousListening == s.continuousListening
    ensures p.voiceLanguage.Some? ==> r.voiceLanguage == p.voiceLanguage.value
    ensures p.voiceLanguage.None? ==> r.voiceLanguage == s.voiceLanguage
  {
    VoiceSettings(s.id, Pick(p.userId, s.userId), Pick(p.wakeWord, s.wakeWord),
                  Pick(p.sensitivity, s.sensitivity), Pick(p.voiceResponse, s.voiceResponse),
                  Pick(p.continuousListening, s.continuousListening),
                  Pick(p.voiceLanguage, s.voiceLanguage))
  }

  /** `{ ...existing, ...patch }` on a quick command. */
  function MergeQuickCommand(q: QuickCommand, p: QuickCommandPatch): (r: QuickCommand)
    ensures r.id == q.id
    ensures p.userId.Some? ==> r.userId == p.userId.value
    ensures p.userId.None? ==> r.userId == q.userId
    ensures p.commandText.Some? ==> r.commandText == p.commandText.value
    ensures p.commandText.None? ==> r.commandText == q.commandText
    ensures p.icon.Some? ==> r.icon == p.icon.value
    ensures p.icon.None? ==> r.icon == q.icon
    ensures p.sortOrder.Some? ==> r.sortOrder == p.sortOrder.value
    ensures p.sortOrder.None? ==> r.sortOrder == q.sortOrder
  {
    QuickCommand(q.id, Pick(p.userId, q.userId), Pick(p.commandText, q.commandText),
                 Pick(p.icon, q.icon), Pick(p.sortOrder, q.sortOrder))
  }

  /** `{ ...existing, ...patch, lastConnected: now }` on a connection. */
  function MergeConnection(c: ErpConnection, p: ConnectionPatch, now: int): (r: ErpConnection)
    ensures r.id == c.id && r.lastConnected == now
    ensures p.userId.Some? ==> r.userId == p.userId.value
    ensures p.userId.None? ==> r.userId == c.userId
    ensures p.url.Some? ==> r.url == p.url.value
    ensures p.url.None? ==> r.url == c.url
    ensures p.apiKey.Some? ==> r.apiKey == p.apiKey.value
    ensures p.apiKey.None? ==> r.apiKey == c.apiKey
    ensures p.apiSecret.Some? ==> r.apiSecret == p.apiSecret.value
    ensures p.apiSecret.None? ==> r.apiSecret == c.apiSecret
    ensures p.isActive.Some? ==> r.isActive == p.isActive.value
    ensures p.isActive.None? ==> r.isActive == c.isActive
  {
    ErpConnection(c.id, Pick(p.userId, c.userId), Pick(p.url, c.url), Pick(p.apiKey, c.apiKey),
                  Pick(p.apiSecret, c.apiSecret), Pick(p.isActive, c.isActive), now)
  }
}
