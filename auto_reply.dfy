/** The auto-reply policy: the text answered to an inbound message. */
module AutoReply {
  import opened Text
  import opened Settings

  const MenuHint := "\nReply 1 for prices, 2 for Address."

  /** The sender's name, or "there" when it is empty. */
  function Addressee(name: string): string {
    if name == "" then "there" else name
  }

  function Greeting(cfg: Config, name: string): string {
    "Hi " + Addressee(name) + "! " + cfg.autoReplyMessage + MenuHint
  }

  /** `build_auto_reply`: menu choice "1" answers the price text, "2" the address text,
      and everything else (other digit strings included) a greeting. */
  function BuildAutoReply(cfg: Config, cc: CharClass, name: string, incoming: string): (r: string)
    ensures r == cfg.priceText || r == cfg.addressText || r == Greeting(cfg, name)
    ensures !IsDigits(cc, Strip(cc, incoming)) ==> r == Greeting(cfg, name)
  {
    var t := Strip(cc, incoming);
    if IsDigits(cc, t) && t == "1" then cfg.priceText
    else if IsDigits(cc, t) && t == "2" then cfg.addressText
    else Greeting(cfg, name)
  }

  /** Since "1" and "2" are digit strings, the reply depends only on whether the trimmed
      text equals one of them. */
  lemma ReplyByTrimmedText(cfg: Config, cc: CharClass, name: string, incoming: string)
    requires cc.isDigit('1') && cc.isDigit('2')
    ensures var t := Strip(cc, incoming);
      BuildAutoReply(cfg, cc, name, incoming) ==
        if t == "1" then cfg.priceText
        else if t == "2" then cfg.addressText
        else Greeting(cfg, name)
  {
  }

  /** Whitespace around the menu choice does not matter. */
  lemma PaddedMenuChoice(cfg: Config, cc: CharClass, name: string, pre: string, post: string)
    requires AsciiAware(cc)
    requires AllSpace(cc, pre) && AllSpace(cc, post)
    ensures BuildAutoReply(cfg, cc, name, pre + "1" + post) == cfg.priceText
    ensures BuildAutoReply(cfg, cc, name, pre + "2" + post) == cfg.addressText
  {
    StripOfPadded(cc, pre, "1", post);
    StripOfPadded(cc, pre, "2", post);
    ReplyByTrimmedText(cfg, cc, name, pre + "1" + post);
    ReplyByTrimmedText(cfg, cc, name, pre + "2" + post);
  }

  /** No other digit string is special: "3", "12" and the empty text are greeted. */
  lemma OtherInputsGreet(cfg: Config, cc: CharClass, name: string)
    requires AsciiAware(cc)
    ensures BuildAutoReply(cfg, cc, name, "3") == Greeting(cfg, name)
    ensures BuildAutoReply(cfg, cc, name, "12") == Greeting(cfg, name)
    ensures BuildAutoReply(cfg, cc, name, "") == Greeting(cfg, name)
  {
  }

  /** The greeting names the sender (or "there"), carries the configured auto-reply
      message and ends with the menu hint. */
  lemma GreetingContents(cfg: Config, name: string)
    ensures IsInfix(Addressee(name), Greeting(cfg, name))
    ensures IsInfix(cfg.autoReplyMessage, Greeting(cfg, name))
    ensures name != "" ==> IsInfix(name, Greeting(cfg, name))
    ensures name == "" ==> IsInfix("there", Greeting(cfg, name))
    ensures MenuHint <= Greeting(cfg, name)[|Greeting(cfg, name)| - |MenuHint|..]
  {
    var g := Greeting(cfg, name);
    var who := Addressee(name);
    assert g == "Hi " + who + ("! " + cfg.autoReplyMessage + MenuHint);
    InfixOfConcat("Hi ", who, "! " + cfg.autoReplyMessage + MenuHint);
    assert g == ("Hi " + who + "! ") + cfg.autoReplyMessage + MenuHint;
    InfixOfConcat("Hi " + who + "! ", cfg.autoReplyMessage, MenuHint);
  }

  /** With the built-in defaults, "1" answers the default price text. */
  lemma DefaultPriceReply(cc: CharClass, name: string)
    requires AsciiAware(cc)
    ensures BuildAutoReply(Defaults, cc, name, "1") == "Our basic plan starts at \U{20B9}199/month."
    ensures BuildAutoReply(Defaults, cc, name, "2") == "We are located at ..."
  {
  }
}
