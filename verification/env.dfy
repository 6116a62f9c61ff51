/** The administrator's OpenAI key, as both the upload route and lib/openai.ts read it. */
module Env {
  import opened Wrappers
  import opened Text

  /** `process.env.ADMIN_OPENAI_API_KEY?.replace(/\s+/g, '')`, with `""` standing for an
      unset variable: every whitespace character is removed, and a key that is unset or
      only whitespace reads as absent. */
  function CleanKey(env: Option<string>): (k: string)
    ensures forall i | 0 <= i < |k| :: !IsSpace(k[i])
    ensures k == "" <==> (env.None? || AllSpace(env.value))
  {
    if env.Some? then RemoveSpaces(env.value) else ""
  }

  /** A key that holds no white space is used as it is, so cleaning twice changes
      nothing. */
  lemma CleanKeyKeeps(key: string, env: Option<string>)
    requires forall i | 0 <= i < |key| :: !IsSpace(key[i])
    ensures CleanKey(Some(key)) == key
    ensures CleanKey(Some(CleanKey(env))) == CleanKey(env)
  {
    RemoveSpacesNoOp(key);
    RemoveSpacesNoOp(CleanKey(env));
  }
}
