/** Small shared vocabulary: optional values, chat messages and JavaScript's `slice(-n)`. */
module Common {

  /** A value that may be absent (JavaScript `undefined`). */
  datatype Option<T> = None | Some(value: T) {
    function GetOr(default: T): T {
      match this
      case Some(v) => v
      case None => default
    }
  }

  /** The three roles a chat message may carry (`OpenRouterMessage.role`). */
  datatype Role = System | User | Assistant

  /** One chat message as sent to the language-model provider. */
  datatype Message = Message(role: Role, content: string)

  function Min(a: int, b: int): int { if a <= b then a else b }

  function Max(a: int, b: int): int { if a <= b then b else a }

  /** JavaScript's `xs.slice(-n)` for a positive `n`: the last `n` elements, or all of them. */
  function LastN<T>(xs: seq<T>, n: nat): (r: seq<T>)
    ensures |r| == Min(|xs|, n)
    ensures r == xs[|xs| - |r|..]
  {
    if |xs| <= n then xs else xs[|xs| - n..]
  }

  /** Taking the last `n` twice, with appends in between, equals taking it once at the end. */
  lemma LastNOfAppend<T>(xs: seq<T>, ys: seq<T>, n: nat)
    ensures LastN(LastN(xs, n) + ys, n) == LastN(xs + ys, n)
  {
    var a := LastN(xs, n);
    if |xs| > n {
      assert a + ys == (xs + ys)[|xs| - n..];
    }
  }

  /** `process.env`: each variable is absent or holds a string. */
  type Env = map<string, string>

  /** `!!process.env[name]`: present and not the empty string. */
  predicate EnvSet(env: Env, name: string) {
    name in env && env[name] != ""
  }

  /** `process.env[name] || fallback`. */
  function EnvOr(env: Env, name: string, fallback: string): string {
    if EnvSet(env, name) then env[name] else fallback
  }
}
