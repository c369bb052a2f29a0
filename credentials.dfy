/**
 * The credential-store setup script: after an optional overwrite confirmation it
 * prompts for the administrator's user name and password, validates them by
 * connecting, stores them in the encrypted user configuration and key files, and
 * restricts both files to their owner. Every failure of those calls exits 1.
 */
module Credentials {
  import opened Wlst

  const ContinuePrompt: string := "Continue? (yes/no): "
  const UserPrompt: string := "  Username [weblogic]: "
  const PasswordPrompt: string := "  Password: "
  const ConfirmPasswordPrompt: string := "  Confirm Password: "

  /** The mode 0600: read and write for the owner only. */
  const OwnerOnly: nat := 6 * 64

  /** ASCII lower case of one character. */
  function LowerChar(c: char): (r: char)
    ensures 'A' <= c <= 'Z' ==> r as int == c as int + 32
    ensures !('A' <= c <= 'Z') ==> r == c
  {
    if 'A' <= c <= 'Z' then (c as int + 32) as char else c
  }

  /** String lower case, character by character. */
  function Lower(s: string): (r: string)
    ensures |r| == |s|
  {
    if s == [] then [] else [LowerChar(s[0])] + Lower(s[1..])
  }

  /** Every character of the lower-cased string is the lower case of the one at its place. */
  lemma {:induction false} LowerAt(s: string, i: nat)
    requires i < |s|
    ensures Lower(s)[i] == LowerChar(s[i])
    decreases i
  {
    if i > 0 {
      LowerAt(s[1..], i - 1);
    }
  }

  /** The answer confirms exactly when it is "yes" in any mix of upper and lower case. */
  lemma ConfirmsExactly(confirm: string)
    ensures Lower(confirm) == "yes" <==>
              && |confirm| == 3
              && (confirm[0] == 'y' || confirm[0] == 'Y')
              && (confirm[1] == 'e' || confirm[1] == 'E')
              && (confirm[2] == 's' || confirm[2] == 'S')
  {
    if |confirm| == 3 {
      LowerAt(confirm, 0);
      LowerAt(confirm, 1);
      LowerAt(confirm, 2);
    }
  }

  /** The observable result of the setup: the prompts shown, the calls issued and the exit. */
  datatype Setup = Setup(prompts: seq<string>, trace: seq<Command>, exit: Exit)

  /** The user name actually used: an empty answer selects the default administrator. */
  function EffectiveUser(user: string): (u: string)
    ensures u != []
    ensures user == [] ==> u == AdminUser
    ensures user != [] ==> u == user
  {
    if user == [] then AdminUser else user
  }

  /** The calls of the try block, in order: connect, store, disconnect, then the two chmods. */
  function CredentialCommands(user: string, password: string): seq<Command>
  {
    [ConnectWithPassword(user, password, AdminUrl), StoreUserConfig(ConfigFile, KeyFile), Disconnect,
     Chmod(ConfigFile, OwnerOnly), Chmod(KeyFile, OwnerOnly)]
  }

  /**
   * The script with `configExists`, `keyExists` the existence of the two files and
   * `confirm`, `user`, `password`, `confirmPassword` the answers to the prompts (an
   * answer is read only when its prompt is shown).
   *
   * The overwrite question is asked exactly when one of the files exists, and a
   * refusal ends the script with status 0 before anything else is asked or issued.
   * Nothing is issued unless a non-empty password was entered twice alike; an empty
   * password or a mismatched confirmation ends the script with status 1, and the
   * script never ends with an escaped exception.
   */
  function StoreCredentials(ep: Endpoint, configExists: bool, keyExists: bool, confirm: string, user: string,
                            password: string, confirmPassword: string): (s: Setup)
    ensures var overwrite := configExists || keyExists;
            var proceeds := !overwrite || Lower(confirm) == "yes";
            && (|s.prompts| > 0 && s.prompts[0] == ContinuePrompt <==> overwrite)
            && (!proceeds ==> s == Setup([ContinuePrompt], [], Status(0)))
            && (s.trace != [] ==> proceeds && password != [] && password == confirmPassword)
            && (proceeds && (password == [] || password != confirmPassword) ==> s.exit == Status(1))
            && (s.exit == Status(0) || s.exit == Status(1))
  {
    var overwrite := configExists || keyExists;
    var asked := if overwrite then [ContinuePrompt] else [];
    if overwrite && Lower(confirm) != "yes" then Setup(asked, [], Status(0))
    else
      var credentialPrompts := asked + [UserPrompt] + [PasswordPrompt];
      if password == [] then Setup(credentialPrompts, [], Status(1))
      else
        var prompts := credentialPrompts + [ConfirmPasswordPrompt];
        if password != confirmPassword then Setup(prompts, [], Status(1))
        else
          var (issued, ok) := TryBlock(ep, [], CredentialCommands(EffectiveUser(user), password));
          Setup(prompts, issued, if ok then Status(0) else Status(1))
  }

  /** The try block of the script: each call is issued only after the ones before it returned. */
  method StoreAndSecure(ep: Endpoint, history: seq<Command>, adminUser: string, password: string) returns (ok: bool, issued: seq<Command>)
    ensures (issued, ok) == TryBlock(ep, history, CredentialCommands(adminUser, password))
  {
    ok := true;
    issued := [];
    // the calls of the try block reached so far
    ghost var steps: seq<Command> := [];
    issued, ok := TryCall(ep, history, steps, issued, ok, ConnectWithPassword(adminUser, password, AdminUrl));
    steps := steps + [ConnectWithPassword(adminUser, password, AdminUrl)];
    issued, ok := TryCall(ep, history, steps, issued, ok, StoreUserConfig(ConfigFile, KeyFile));
    steps := steps + [StoreUserConfig(ConfigFile, KeyFile)];
    issued, ok := TryCall(ep, history, steps, issued, ok, Disconnect);
    steps := steps + [Disconnect];
    issued, ok := TryCall(ep, history, steps, issued, ok, Chmod(ConfigFile, OwnerOnly));
    steps := steps + [Chmod(ConfigFile, OwnerOnly)];
    issued, ok := TryCall(ep, history, steps, issued, ok, Chmod(KeyFile, OwnerOnly));
    steps := steps + [Chmod(KeyFile, OwnerOnly)];
    assert steps == CredentialCommands(adminUser, password);
  }

  /** The script body, proved to behave as `StoreCredentials`. */
  method StoreCredentialsMain(ep: Endpoint, configExists: bool, keyExists: bool, confirm: string, user: string,
                              password: string, confirmPassword: string) returns (setup: Setup)
    ensures setup == StoreCredentials(ep, configExists, keyExists, confirm, user, password, confirmPassword)
  {
    var prompts: seq<string> := [];
    if configExists || keyExists {
      prompts := [ContinuePrompt];
      if Lower(confirm) != "yes" {
        return Setup(prompts, [], Status(0));
      }
    }
    prompts := prompts + [UserPrompt];
    var adminUser := user;
    if adminUser == [] {
      adminUser := AdminUser;
    }
    prompts := prompts + [PasswordPrompt];
    if password == [] {
      return Setup(prompts, [], Status(1));
    }
    prompts := prompts + [ConfirmPasswordPrompt];
    if password != confirmPassword {
      return Setup(prompts, [], Status(1));
    }
    var ok, issued := StoreAndSecure(ep, [], adminUser, password);
    return Setup(prompts, issued, if ok then Status(0) else Status(1));
  }

  /**
   * Once past the prompts, the calls are a prefix of connect, store, disconnect and
   * the two chmods; the status is 0 exactly when each returns after the ones before
   * it, and then all five were issued. Nothing is stored unless the connect returned,
   * and the connect uses the defaulted user name.
   */
  lemma StoreCredentialsCalls(ep: Endpoint, configExists: bool, keyExists: bool, confirm: string, user: string,
                              password: string, confirmPassword: string)
    requires !(configExists || keyExists) || Lower(confirm) == "yes"
    requires password != [] && password == confirmPassword
    ensures var s := StoreCredentials(ep, configExists, keyExists, confirm, user, password, confirmPassword);
            var cmds := CredentialCommands(EffectiveUser(user), password);
            && s.trace != [] && s.trace <= cmds
            && s.trace[0] == ConnectWithPassword(EffectiveUser(user), password, AdminUrl)
            && (s.exit == Status(0) <==> forall i :: 0 <= i < |cmds| ==> Accepts(ep, cmds[..i], cmds[i]))
            && (s.exit == Status(0) ==> s.trace == cmds)
            && (|s.trace| > 1 ==> Accepts(ep, [], cmds[0]))
  {
    var cmds := CredentialCommands(EffectiveUser(user), password);
    var (issued, ok) := TryBlock(ep, [], cmds);
    TryBlockShape(ep, [], cmds);
    TryBlockCompletes(ep, [], cmds);
    assert forall i :: 0 <= i < |cmds| ==> [] + cmds[..i] == cmds[..i];
    if |issued| > 1 {
      TryBlockStopsAtFirstFailure(ep, [], cmds, 0);
      assert [] + issued[..0] == [];
      assert issued[0] == cmds[0];
    }
  }
}
