/**
 The configuration records and the per-account session record.
 */
module Core {
  import opened Platform

  /** One configured account: login credentials and the confirmation secret. */
  datatype Account = Account(username: string, password: string, sharedSecret: string, identitySecret: string)

  /** The distinguished monitoring account; it has no identity secret. */
  datatype MainAccount = MainAccount(username: string, password: string, sharedSecret: string)

  datatype Config = Config(accounts: seq<Account>, partner: uint32, token: string, mainAccount: MainAccount)

  /**
   What the registry keeps for an authenticated account. The library's
   session handle is not part of the record: the platform replies for a
   session are supplied per registry key instead.
   */
  datatype Session = Session(timeDiff: int64, webApiKey: string, secretIdentity: string)
}
