/**
 * Choosing the backend contexts a sync needs: each optional context is
 * built only when the account configures that backend and uses it.
 */
module BackendContext {
  import opened Wrappers

  type ImapConfig(==)
  type NotmuchConfig(==)
  type SmtpConfig(==)
  type SendmailConfig(==)
  /** An error raised while building a context (credentials, sync directory). */
  type BuildError(==)

  type Path = string

  datatype MaildirConfig = MaildirConfig(rootDir: Path)

  datatype BackendKind = Imap | Maildir | MaildirForSync | Notmuch | Smtp | Sendmail

  /** The backend sections of an account's TOML configuration. */
  datatype TomlAccountConfig = TomlAccountConfig(
    imapConfig: Option<ImapConfig>,
    maildirConfig: Option<MaildirConfig>,
    notmuchConfig: Option<NotmuchConfig>,
    smtpConfig: Option<SmtpConfig>,
    sendmailConfig: Option<SendmailConfig>)

  /** An IMAP context builder whose credentials have been prebuilt. */
  datatype ImapContextBuilder = ImapContextBuilder(config: ImapConfig)
  datatype MaildirContextBuilder = MaildirContextBuilder(config: MaildirConfig)
  datatype NotmuchContextBuilder = NotmuchContextBuilder(config: NotmuchConfig)
  datatype SmtpContextBuilder = SmtpContextBuilder(config: SmtpConfig)
  datatype SendmailContextBuilder = SendmailContextBuilder(config: SendmailConfig)

  datatype BackendContextBuilder = BackendContextBuilder(
    imapBuilder: Option<ImapContextBuilder>,
    maildirBuilder: Option<MaildirContextBuilder>,
    maildirForSyncBuilder: Option<MaildirContextBuilder>,
    notmuchBuilder: Option<NotmuchContextBuilder>,
    smtpBuilder: Option<SmtpContextBuilder>,
    sendmailBuilder: Option<SendmailContextBuilder>)

  /** `Option::filter` with a condition that does not look at the value. */
  function KeepIf<T>(o: Option<T>, keep: bool): Option<T>
  {
    if keep then o else None
  }

  /**
   * The context builder for a sync. `imapCredentials` is the outcome that
   * prebuilding the IMAP credentials would have; it is consulted only when
   * an IMAP context is built. `syncDir` is the outcome of looking up the
   * account's sync directory, which is always looked up. The IMAP error, if
   * any, comes first.
   */
  function NewBackendContext(
    toml: TomlAccountConfig,
    usedBackends: set<BackendKind>,
    imapCredentials: Result<(), BuildError>,
    syncDir: Result<Path, BuildError>)
    : (r: Result<BackendContextBuilder, BuildError>)
    ensures r.Err? <==> (toml.imapConfig.Some? && Imap in usedBackends && imapCredentials.Err?) || syncDir.Err?
    ensures r.Err? && toml.imapConfig.Some? && Imap in usedBackends && imapCredentials.Err? ==>
      r.error == imapCredentials.error
    ensures r.Err? && !(toml.imapConfig.Some? && Imap in usedBackends && imapCredentials.Err?) ==>
      r.error == syncDir.error
  {
    var imapBuilder: Result<Option<ImapContextBuilder>, BuildError> :=
      match KeepIf(toml.imapConfig, Imap in usedBackends)
      case Some(config) =>
        (match imapCredentials
         case Ok(_) => Ok(Some(ImapContextBuilder(config)))
         case Err(e) => Err(e))
      case None => Ok(None);
    if imapBuilder.Err? then Err(imapBuilder.error)
    else
      var maildir :=
        match KeepIf(toml.maildirConfig, Maildir in usedBackends)
        case Some(config) => Some(MaildirContextBuilder(config))
        case None => None;
      match syncDir
      case Err(e) => Err(e)
      case Ok(rootDir) =>
        var maildirForSync :=
          match KeepIf(Some(MaildirConfig(rootDir)), MaildirForSync in usedBackends)
          case Some(config) => Some(MaildirContextBuilder(config))
          case None => None;
        var notmuch :=
          match KeepIf(toml.notmuchConfig, Notmuch in usedBackends)
          case Some(config) => Some(NotmuchContextBuilder(config))
          case None => None;
        Ok(BackendContextBuilder(imapBuilder.value, maildir, maildirForSync, notmuch, None, None))
  }

  /** The kinds whose context a builder carries. */
  function PresentKinds(b: BackendContextBuilder): set<BackendKind>
  {
    (if b.imapBuilder.Some? then {Imap} else {})
    + (if b.maildirBuilder.Some? then {Maildir} else {})
    + (if b.maildirForSyncBuilder.Some? then {MaildirForSync} else {})
    + (if b.notmuchBuilder.Some? then {Notmuch} else {})
    + (if b.smtpBuilder.Some? then {Smtp} else {})
    + (if b.sendmailBuilder.Some? then {Sendmail} else {})
  }

  /** The kinds a sync can build a context for: the configured IMAP, Maildir and Notmuch, and the sync Maildir. */
  function SyncableKinds(toml: TomlAccountConfig): set<BackendKind>
  {
    (if toml.imapConfig.Some? then {Imap} else {})
    + (if toml.maildirConfig.Some? then {Maildir} else {})
    + {MaildirForSync}
    + (if toml.notmuchConfig.Some? then {Notmuch} else {})
  }

  /**
   * On success, exactly the used kinds that are syncable have a context,
   * so SMTP and sendmail never do.
   */
  lemma PresentKindsAreUsedAndConfigured(
    toml: TomlAccountConfig,
    usedBackends: set<BackendKind>,
    imapCredentials: Result<(), BuildError>,
    syncDir: Result<Path, BuildError>)
    requires NewBackendContext(toml, usedBackends, imapCredentials, syncDir).Ok?
    ensures PresentKinds(NewBackendContext(toml, usedBackends, imapCredentials, syncDir).value)
         == usedBackends * SyncableKinds(toml)
  {
    var b := NewBackendContext(toml, usedBackends, imapCredentials, syncDir).value;
    forall k ensures k in PresentKinds(b) <==> k in usedBackends * SyncableKinds(toml) {
      match k
      case Imap =>
      case Maildir =>
      case MaildirForSync =>
      case Notmuch =>
      case Smtp =>
      case Sendmail =>
    }
  }

  /**
   * On success each context carries the configuration it was built from:
   * the TOML section for IMAP, Maildir and Notmuch, the sync directory for
   * the sync Maildir; SMTP and sendmail are always absent.
   */
  lemma ContextsCarryTheirConfiguration(
    toml: TomlAccountConfig,
    usedBackends: set<BackendKind>,
    imapCredentials: Result<(), BuildError>,
    syncDir: Result<Path, BuildError>)
    requires NewBackendContext(toml, usedBackends, imapCredentials, syncDir).Ok?
    ensures var b := NewBackendContext(toml, usedBackends, imapCredentials, syncDir).value;
      && (b.imapBuilder.Some? <==> toml.imapConfig.Some? && Imap in usedBackends)
      && (b.imapBuilder.Some? ==> b.imapBuilder.value.config == toml.imapConfig.value)
      && (b.maildirBuilder.Some? <==> toml.maildirConfig.Some? && Maildir in usedBackends)
      && (b.maildirBuilder.Some? ==> b.maildirBuilder.value.config == toml.maildirConfig.value)
      && (b.maildirForSyncBuilder.Some? <==> MaildirForSync in usedBackends)
      && (b.maildirForSyncBuilder.Some? ==> b.maildirForSyncBuilder.value.config == MaildirConfig(syncDir.value))
      && (b.notmuchBuilder.Some? <==> toml.notmuchConfig.Some? && Notmuch in usedBackends)
      && (b.notmuchBuilder.Some? ==> b.notmuchBuilder.value.config == toml.notmuchConfig.value)
      && b.smtpBuilder.None? && b.sendmailBuilder.None?
  {
  }

  /** Using more backends never drops a context, as long as the build still succeeds. */
  lemma MoreBackendsMoreContexts(
    toml: TomlAccountConfig,
    used: set<BackendKind>,
    more: set<BackendKind>,
    imapCredentials: Result<(), BuildError>,
    syncDir: Result<Path, BuildError>)
    requires used <= more
    requires NewBackendContext(toml, more, imapCredentials, syncDir).Ok?
    ensures NewBackendContext(toml, used, imapCredentials, syncDir).Ok?
    ensures PresentKinds(NewBackendContext(toml, used, imapCredentials, syncDir).value)
         <= PresentKinds(NewBackendContext(toml, more, imapCredentials, syncDir).value)
  {
    PresentKindsAreUsedAndConfigured(toml, used, imapCredentials, syncDir);
    PresentKindsAreUsedAndConfigured(toml, more, imapCredentials, syncDir);
  }
}
