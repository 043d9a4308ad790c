/**
 * The command options of pkg/cmd/view-webhook.go: Complete derives the
 * resulting kubeconfig context from the loaded configuration, the flags and
 * the arguments; Validate insists on a current context; Run does nothing.
 * Reading the kubeconfig and the flags is I/O: their results are parameters.
 */
module ViewWebhook {
  import opened Wrappers
  import opened GoStd

  /** A kubeconfig context: the cluster, the user and the namespace it names. */
  datatype Context = Context(cluster: string, authInfo: string, namespace: string)

  /** `api.NewContext()`: every field empty. */
  const NewContext := Context("", "", "")

  datatype Config = Config(currentContext: string, contexts: map<string, Context>)

  /** The zero configuration the loader returns with an error. */
  const EmptyConfig := Config("", map[])

  /** The values of the --namespace, --context, --cluster and --user flags. */
  datatype Flags = Flags(namespace: string, context: string, cluster: string, user: string)

  datatype OptionsError =
    | ErrLoadConfig         // the kubeconfig could not be loaded
    | ErrNamespaceConflict  // "cannot specify both a --namespace value and a new namespace argument"
    | ErrNoContext          // errNoContext

  /** The part of a string before its first '/': `strings.Split(s, "/")[0]`. */
  function BeforeFirstSlash(s: string): string
  {
    Split(s, '/')[0]
  }

  /** generateContextName: namespace, then "/cluster" and "/user" (cut at its first '/') when set. */
  function GenerateContextName(fromContext: Context): string
  {
    var withCluster := if |fromContext.cluster| > 0 then fromContext.namespace + "/" + fromContext.cluster
                       else fromContext.namespace;
    if |fromContext.authInfo| > 0 then withCluster + "/" + BeforeFirstSlash(fromContext.authInfo) else withCluster
  }

  /** The fields of ViewWebhookOptions that Complete and Validate use. */
  datatype OptionsState = OptionsState(
    resultingContext: Option<Context>,
    resultingContextName: string,
    userSpecifiedCluster: string,
    userSpecifiedContext: string,
    userSpecifiedAuthInfo: string,
    userSpecifiedNamespace: string,
    rawConfig: Config,
    args: seq<string>)

  /** The context Complete derives once a namespace is known and the current context exists. */
  function ResultingContext(config: Config, flags: Flags, namespace: string): Context
    requires config.currentContext in config.contexts
  {
    var current := config.contexts[config.currentContext];
    var base := if |flags.context| > 0 && flags.context in config.contexts then config.contexts[flags.context]
                else NewContext.(cluster := current.cluster, authInfo := current.authInfo);
    base.(namespace := namespace,
          cluster := if |flags.cluster| > 0 then flags.cluster else base.cluster,
          authInfo := if |flags.user| > 0 then flags.user else base.authInfo)
  }

  function ResultingContextName(config: Config, flags: Flags, namespace: string): string
    requires config.currentContext in config.contexts
  {
    if |flags.context| > 0 then flags.context else GenerateContextName(ResultingContext(config, flags, namespace))
  }

  /**
   * What Complete does to the options `s`, given the loaded kubeconfig (None
   * when loading fails) and the flags; each early return keeps what was
   * assigned up to it.
   */
  function CompleteState(s: OptionsState, args: seq<string>, loaded: Option<Config>, flags: Flags)
    : (OptionsState, Option<OptionsError>)
  {
    var loadedState := s.(args := args, rawConfig := if loaded.Some? then loaded.value else EmptyConfig);
    if loaded.None? then (loadedState, Some(ErrLoadConfig))
    else
      var withFlag := loadedState.(userSpecifiedNamespace := flags.namespace);
      if |args| > 0 && |flags.namespace| > 0 then (withFlag, Some(ErrNamespaceConflict))
      else
        var withNamespace := if |args| > 0 then withFlag.(userSpecifiedNamespace := args[0]) else withFlag;
        if |withNamespace.userSpecifiedNamespace| == 0 then (withNamespace, None)
        else
          var withFlags := withNamespace.(userSpecifiedContext := flags.context, userSpecifiedCluster := flags.cluster,
                                          userSpecifiedAuthInfo := flags.user);
          var config := withFlags.rawConfig;
          var namespace := withFlags.userSpecifiedNamespace;
          if config.currentContext !in config.contexts then (withFlags, Some(ErrNoContext))
          else
            (withFlags.(resultingContext := Some(ResultingContext(config, flags, namespace)),
                        resultingContextName := ResultingContextName(config, flags, namespace)),
             None)
  }

  function ValidateConfig(config: Config): Option<OptionsError>
  {
    if |config.currentContext| == 0 then Some(ErrNoContext) else None
  }

  class ViewWebhookOptions {
    var resultingContext: Option<Context>
    var resultingContextName: string
    var userSpecifiedCluster: string
    var userSpecifiedContext: string
    var userSpecifiedAuthInfo: string
    var userSpecifiedNamespace: string
    var rawConfig: Config
    var args: seq<string>

    function State(): OptionsState
      reads this
    {
      OptionsState(resultingContext, resultingContextName, userSpecifiedCluster, userSpecifiedContext,
                   userSpecifiedAuthInfo, userSpecifiedNamespace, rawConfig, args)
    }

    /** NewViewWebhookOptions: every option at its zero value. */
    constructor ()
      ensures State() == OptionsState(None, "", "", "", "", "", EmptyConfig, [])
    {
      resultingContext := None;
      resultingContextName := "";
      userSpecifiedCluster := "";
      userSpecifiedContext := "";
      userSpecifiedAuthInfo := "";
      userSpecifiedNamespace := "";
      rawConfig := EmptyConfig;
      args := [];
    }

    /** Complete: sets what is needed to derive the resulting context. */
    method Complete(args: seq<string>, loaded: Option<Config>, flags: Flags) returns (err: Option<OptionsError>)
      modifies this
      ensures (State(), err) == CompleteState(old(State()), args, loaded, flags)
    {
      this.args := args;
      if loaded.None? {
        rawConfig := EmptyConfig;
        return Some(ErrLoadConfig);
      }
      rawConfig := loaded.value;
      userSpecifiedNamespace := flags.namespace;
      if |args| > 0 {
        if |userSpecifiedNamespace| > 0 {
          return Some(ErrNamespaceConflict);
        }
        userSpecifiedNamespace := args[0];
      }
      if |userSpecifiedNamespace| == 0 {
        return None;
      }
      userSpecifiedContext := flags.context;
      userSpecifiedCluster := flags.cluster;
      userSpecifiedAuthInfo := flags.user;
      if rawConfig.currentContext !in rawConfig.contexts {
        return Some(ErrNoContext);
      }
      var currentContext := rawConfig.contexts[rawConfig.currentContext];
      var context := NewContext;
      context := context.(cluster := currentContext.cluster, authInfo := currentContext.authInfo);
      if |userSpecifiedContext| > 0 {
        resultingContextName := userSpecifiedContext;
        if userSpecifiedContext in rawConfig.contexts {
          context := rawConfig.contexts[userSpecifiedContext];
        }
      }
      context := context.(namespace := userSpecifiedNamespace);
      if |userSpecifiedCluster| > 0 {
        context := context.(cluster := userSpecifiedCluster);
      }
      if |userSpecifiedAuthInfo| > 0 {
        context := context.(authInfo := userSpecifiedAuthInfo);
      }
      assert context == ResultingContext(rawConfig, flags, userSpecifiedNamespace);
      if |userSpecifiedContext| == 0 {
        resultingContextName := GenerateContextName(context);
      }
      assert resultingContextName == ResultingContextName(rawConfig, flags, userSpecifiedNamespace);
      resultingContext := Some(context);
      return None;
    }

    /** Validate: a current context must be named; nothing changes. */
    method Validate() returns (err: Option<OptionsError>)
      ensures err == ValidateConfig(rawConfig)
      ensures err.Some? <==> rawConfig.currentContext == ""
      ensures err.Some? ==> err.value == ErrNoContext
    {
      if |rawConfig.currentContext| == 0 {
        return Some(ErrNoContext);
      }
      return None;
    }

    /** Run: does nothing and never fails. */
    method Run() returns (err: Option<OptionsError>)
      ensures err == None
    {
      return None;
    }

    /** The RunE callback of the command: Complete, then Validate, then Run, stopping at the first error. */
    method Execute(args: seq<string>, loaded: Option<Config>, flags: Flags) returns (err: Option<OptionsError>)
      modifies this
      ensures (State(), CompleteState(old(State()), args, loaded, flags).1)
              == CompleteState(old(State()), args, loaded, flags)
      ensures err == if CompleteState(old(State()), args, loaded, flags).1.Some?
                     then CompleteState(old(State()), args, loaded, flags).1
                     else ValidateConfig(rawConfig)
    {
      err := Complete(args, loaded, flags);
      if err.Some? {
        return;
      }
      err := Validate();
      if err.Some? {
        return;
      }
      err := Run();
    }
  }

  // ---- properties --------------------------------------------------------------

  /** A failed load is reported first, and the zero configuration is kept. */
  lemma LoadFailure(s: OptionsState, args: seq<string>, flags: Flags)
    ensures CompleteState(s, args, None, flags).1 == Some(ErrLoadConfig)
    ensures CompleteState(s, args, None, flags).0.rawConfig == EmptyConfig
    ensures CompleteState(s, args, None, flags).0.resultingContext == s.resultingContext
  {
  }

  /** A namespace both as flag and as argument is refused, before anything is derived. */
  lemma NamespaceConflict(s: OptionsState, args: seq<string>, config: Config, flags: Flags)
    requires |args| > 0 && flags.namespace != ""
    ensures CompleteState(s, args, Some(config), flags).1 == Some(ErrNamespaceConflict)
    ensures CompleteState(s, args, Some(config), flags).0.userSpecifiedNamespace == flags.namespace
    ensures CompleteState(s, args, Some(config), flags).0.resultingContext == s.resultingContext
  {
  }

  /** Without a namespace, Complete succeeds and derives no context: the current context is not even looked at. */
  lemma NoNamespaceNoContext(s: OptionsState, args: seq<string>, config: Config, flags: Flags)
    requires flags.namespace == "" && (|args| == 0 || args[0] == "")
    ensures CompleteState(s, args, Some(config), flags).1 == None
    ensures CompleteState(s, args, Some(config), flags).0.resultingContext == s.resultingContext
    ensures CompleteState(s, args, Some(config), flags).0.resultingContextName == s.resultingContextName
    ensures CompleteState(s, args, Some(config), flags).0.userSpecifiedContext == s.userSpecifiedContext
  {
  }

  /** With a namespace, Complete fails exactly when the current context is missing from the configuration. */
  lemma CompleteWithNamespace(s: OptionsState, args: seq<string>, config: Config, flags: Flags)
    requires !(|args| > 0 && flags.namespace != "")
    requires (if |args| > 0 then args[0] else flags.namespace) != ""
    ensures var (t, err) := CompleteState(s, args, Some(config), flags);
            var namespace := if |args| > 0 then args[0] else flags.namespace;
            && (err.Some? <==> config.currentContext !in config.contexts)
            && (err.Some? ==> err.value == ErrNoContext && t.resultingContext == s.resultingContext)
            && (err.None? ==>
                  && t.resultingContext == Some(ResultingContext(config, flags, namespace))
                  && t.resultingContextName == ResultingContextName(config, flags, namespace)
                  && t.resultingContext.value.namespace == namespace
                  && t.userSpecifiedNamespace == namespace)
  {
  }

  /**
   * The resulting context: the namespace chosen; the cluster and user from the
   * flags when given, else from the context named by --context when it
   * exists, else from the current context.
   */
  lemma ResultingContextFields(config: Config, flags: Flags, namespace: string)
    requires config.currentContext in config.contexts
    ensures var c := ResultingContext(config, flags, namespace);
            var reference := if flags.context != "" && flags.context in config.contexts
                             then config.contexts[flags.context] else config.contexts[config.currentContext];
            && c.namespace == namespace
            && c.cluster == (if flags.cluster != "" then flags.cluster else reference.cluster)
            && c.authInfo == (if flags.user != "" then flags.user else reference.authInfo)
  {
  }

  /** The resulting name is the --context value, even when no such context exists; else a generated one. */
  lemma ResultingNameChoice(config: Config, flags: Flags, namespace: string)
    requires config.currentContext in config.contexts
    ensures flags.context != "" ==> ResultingContextName(config, flags, namespace) == flags.context
    ensures flags.context == "" ==>
              ResultingContextName(config, flags, namespace) == GenerateContextName(ResultingContext(config, flags, namespace))
  {
  }

  /** A generated name splits at '/' into namespace, cluster (if set) and user up to its first '/' (if set). */
  lemma GeneratedNameParts(c: Context)
    requires '/' !in c.namespace && '/' !in c.cluster
    ensures Split(GenerateContextName(c), '/')
            == [c.namespace]
               + (if c.cluster != "" then [c.cluster] else [])
               + (if c.authInfo != "" then [BeforeFirstSlash(c.authInfo)] else [])
  {
    var user := BeforeFirstSlash(c.authInfo);
    SplitHead(c.authInfo, '/');
    assert '/' !in user;
    SplitWithoutSeparator(user, '/');
    SplitWithoutSeparator(c.cluster, '/');
    SplitWithoutSeparator(c.namespace, '/');
    if c.cluster != "" {
      if c.authInfo != "" {
        assert GenerateContextName(c) == c.namespace + ['/'] + (c.cluster + ['/'] + user);
        SplitAtFirstSeparator(c.namespace, '/', c.cluster + ['/'] + user);
        SplitAtFirstSeparator(c.cluster, '/', user);
      } else {
        assert GenerateContextName(c) == c.namespace + ['/'] + c.cluster;
        SplitAtFirstSeparator(c.namespace, '/', c.cluster);
      }
    } else if c.authInfo != "" {
      assert GenerateContextName(c) == c.namespace + ['/'] + user;
      SplitAtFirstSeparator(c.namespace, '/', user);
    }
  }

  /** Generated names are not unique once a namespace contains '/'. */
  lemma GeneratedNamesCanCollide()
    ensures GenerateContextName(Context("b", "", "a")) == GenerateContextName(Context("", "", "a/b")) == "a/b"
  {
  }

  /** Complete does not check that the current context is named: Validate does, afterwards. */
  lemma CompleteAcceptsWhatValidateRejects()
    ensures var config := Config("", map["" := Context("c", "u", "")]);
            var s := OptionsState(None, "", "", "", "", "", EmptyConfig, []);
            && CompleteState(s, ["ns"], Some(config), Flags("", "", "", "")).1 == None
            && CompleteState(s, ["ns"], Some(config), Flags("", "", "", "")).0.resultingContextName == "ns/c/u"
            && ValidateConfig(config) == Some(ErrNoContext)
  {
    var config := Config("", map["" := Context("c", "u", "")]);
    SplitWithoutSeparator("u", '/');
    assert ResultingContext(config, Flags("", "", "", ""), "ns") == Context("c", "u", "ns");
  }
}
