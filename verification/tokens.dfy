/** The three environment values both scripts need, and `check_tokens`. */
module Tokens {
  import opened Wrappers

  /** `os.getenv` results: `None` when the variable is unset. */
  datatype Config = Config(
    practicumToken: Option<string>,
    telegramToken: Option<string>,
    chatId: Option<string>)

  /** The list `check_tokens` builds, in its order. */
  function TokenList(c: Config): seq<Option<string>> {
    [c.telegramToken, c.practicumToken, c.chatId]
  }

  /** Python's `all` over the tokens, each tested for being not `None`. */
  function AllNotNone(tokens: seq<Option<string>>): (r: bool)
    ensures r <==> forall i :: 0 <= i < |tokens| ==> tokens[i].Some?
  {
    if |tokens| == 0 then true else tokens[0].Some? && AllNotNone(tokens[1..])
  }

  /** `check_tokens()`: true exactly when no token is `None`. */
  function CheckTokens(c: Config): (ok: bool)
    ensures ok <==> c.practicumToken.Some? && c.telegramToken.Some? && c.chatId.Some?
  {
    var tokens := TokenList(c);
    assert tokens[0] == c.telegramToken && tokens[1] == c.practicumToken && tokens[2] == c.chatId;
    AllNotNone(tokens)
  }
}
