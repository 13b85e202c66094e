/**
 * The sidebar's credential handling and model presets in kidney_app.py: the
 * superficial token check, the rule that enables the chat box, and the map
 * from a preset name to a hosted model identifier.
 */
module Credentials {
  import opened Wrappers

  const TokenPrefix: string := "r8_"
  const TokenLength: nat := 40

  /** Python's str.startswith. */
  predicate StartsWith(s: string, prefix: string)
  {
    |prefix| <= |s| && s[..|prefix|] == prefix
  }

  /** The check that chooses between the warning and the go-ahead notice. */
  predicate WellFormedToken(token: string)
  {
    StartsWith(token, TokenPrefix) && |token| == TokenLength
  }

  /** The chat box is disabled only for an empty token. */
  predicate ChatEnabled(token: string)
  {
    token != ""
  }

  /** The token check, stated character by character. */
  lemma WellFormedTokenByCharacters(token: string)
    ensures WellFormedToken(token) <==>
      |token| == 40 && token[0] == 'r' && token[1] == '8' && token[2] == '_'
  {
    if |token| == 40 && token[0] == 'r' && token[1] == '8' && token[2] == '_' {
      assert token[..3] == TokenPrefix;
    }
  }

  /** A well-formed token enables chat, but so does any other non-empty one. */
  lemma WellFormedOnlyAdvisory()
    ensures forall t :: WellFormedToken(t) ==> ChatEnabled(t)
    ensures !WellFormedToken("r8_") && ChatEnabled("r8_")
    ensures !WellFormedToken("secret") && ChatEnabled("secret")
  {
  }

  /** The notice shown above the chat panel. */
  datatype Notice = AlreadyProvided | EnterCredentials | Proceed

  /** The token that ends up in the environment, and the notice shown. */
  datatype Credential = Credential(token: string, notice: Notice)

  /**
   * A token from the secret store wins and is not checked; otherwise the
   * typed token is used and only decides which notice is shown.
   */
  function ResolveCredential(secret: Option<string>, typed: string): (c: Credential)
    ensures secret.Some? ==> c == Credential(secret.value, AlreadyProvided)
    ensures secret.None? ==> c.token == typed && c.notice != AlreadyProvided
    ensures secret.None? ==> (c.notice == Proceed <==> WellFormedToken(typed))
  {
    match secret
    case Some(t) => Credential(t, AlreadyProvided)
    case None =>
      if WellFormedToken(typed) then Credential(typed, Proceed)
      else Credential(typed, EnterCredentials)
  }

  /** Whatever notice is shown, chat is enabled iff the token is non-empty. */
  lemma NoticeDoesNotGateChat(secret: Option<string>, typed: string)
    ensures ChatEnabled(ResolveCredential(secret, typed).token) <==>
      (if secret.Some? then secret.value != "" else typed != "")
    ensures secret.None? && typed != "" && !WellFormedToken(typed) ==>
      ResolveCredential(secret, typed).notice == EnterCredentials &&
      ChatEnabled(ResolveCredential(secret, typed).token)
  {
  }

  const Preset7B: string := "Llama2-7B"
  const Preset13B: string := "Llama2-13B"
  const Presets: seq<string> := [Preset7B, Preset13B]

  const Model7B: string := "a16z-infra/llama7b-v2-chat:4f0a4744c7295c024a1de15e1a63c880d3da035fa1f49bfd344fe076074c8eea"
  const Model13B: string := "a16z-infra/llama13b-v2-chat:df7690f1994d94e96ad9d568eac121aecf50684a0b0963b25a41cc40061269e5"

  /** The model identifier a preset selects; any other name leaves it unset. */
  function PresetModel(preset: string): (id: Option<string>)
    ensures id.Some? <==> preset in Presets
    ensures preset == Preset7B ==> id == Some(Model7B)
    ensures preset == Preset13B ==> id == Some(Model13B)
  {
    if preset == Preset7B then Some(Model7B)
    else if preset == Preset13B then Some(Model13B)
    else None
  }

  /** The identifier every chat request is actually sent to, whatever the preset. */
  const RequestModel: string := Model13B

  /** The presets select distinct models, and only one of them is the one used. */
  lemma PresetIgnoredByRequest()
    ensures PresetModel(Preset7B) != PresetModel(Preset13B)
    ensures PresetModel(Preset13B) == Some(RequestModel)
    ensures PresetModel(Preset7B) != Some(RequestModel)
  {
    assert |Model7B| != |Model13B|;
  }
}
