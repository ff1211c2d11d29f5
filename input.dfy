/**
 * The decisions the two free-text steps take on the user's text: the `/cancel` guard run first,
 * the quantity parse, and the recipient classification.
 */
module Input {
  import opened Wrappers
  import opened PyStr

  const CancelKeyword: string := "/cancel"

  /**
   * try_cancel's test: the message has text, and that text, stripped and lower-cased, is `/cancel`.
   * (The truthiness test on the text adds nothing: the empty text never strips to the keyword.)
   */
  predicate IsCancelCommand(text: Option<string>) {
    text.Some? && |text.value| > 0 && Lower(Strip(text.value)) == CancelKeyword
  }

  /** The guard fires exactly on present texts whose stripped, lower-cased form is the keyword. */
  lemma CancelCommandIff(text: Option<string>)
    ensures IsCancelCommand(text) <==> text.Some? && Lower(Strip(text.value)) == CancelKeyword
  {
    if text.Some? && Lower(Strip(text.value)) == CancelKeyword {
      assert |Strip(text.value)| == 7;
    }
  }

  /** Any capitalisation of `/cancel`, padded with whitespace, cancels. */
  lemma {:induction false} CancelPadded(before: string, word: string, after: string)
    requires forall i :: 0 <= i < |before| ==> IsSpace(before[i])
    requires forall i :: 0 <= i < |after| ==> IsSpace(after[i])
    requires Lower(word) == CancelKeyword
    ensures IsCancelCommand(Some(before + word + after))
  {
    var s := before + word + after;
    assert word[0] == '/' by { assert LowerChar(word[0]) == '/'; }
    assert LowerChar(word[6]) == 'l';
    StripCut(s, |before|, |before| + |word|);
    assert s[|before|..|before| + |word|] == word;
  }

  /** A text the guard takes as `/cancel` would not have been a quantity or a recipient anyway. */
  lemma CancelIsNoInput(s: string)
    ensures IsCancelCommand(Some(s)) ==> ParseQuantity(Some(s)).None? && ClassifyRecipient(s).Rejected?
  {
    if IsCancelCommand(Some(s)) {
      var t := Strip(s);
      assert LowerChar(t[0]) == '/';
      assert t[0] == '/';
      assert !IsDigit(t[0]);
    }
  }

  // ---------------------------------------------------------------------------
  // Quantity step

  /** `qty = int(message.text)` with `qty <= 0` rejected; a missing text fails to parse too. */
  function ParseQuantity(text: Option<string>): (q: Option<int>)
    ensures q.Some? ==> q.value > 0
    ensures text.None? ==> q.None?
  {
    if text.None? then None
    else
      match ParseInt(text.value)
      case Some(n) => if n <= 0 then None else Some(n)
      case None => None
  }

  /** Every positive number, written out, is accepted as that quantity; no other number is. */
  lemma QuantityOfShow(n: int)
    ensures ParseQuantity(Some(Show(n))) == if n > 0 then Some(n) else None
  {
    ParseShow(n);
  }

  /** A text is accepted exactly when it parses as an integer that is strictly positive. */
  lemma QuantityAccepted(text: Option<string>)
    ensures ParseQuantity(text).Some? <==>
      text.Some? && ParseInt(text.value).Some? && ParseInt(text.value).value > 0
    ensures ParseQuantity(text).Some? ==> ParseQuantity(text).value == ParseInt(text.value).value
  {
  }

  // ---------------------------------------------------------------------------
  // Recipient step

  /** The classification of the recipient text. */
  datatype Recipient = Channel(username: string) | User(id: int) | Rejected

  /** `user_input = text.strip()`: `@...` is a channel, all digits a user id, anything else rejected. */
  function ClassifyRecipient(text: string): (r: Recipient)
    ensures r.Channel? ==> StartsWith(r.username, "@")
    ensures r.User? ==> r.id >= 0
  {
    var input := Strip(text);
    if StartsWith(input, "@") then Channel(input)
    else if IsDigits(input) then User(DigitsValue(input))
    else Rejected
  }

  /** The classification by cases, in both directions. */
  lemma ClassifyRecipientCases(text: string)
    ensures ClassifyRecipient(text).Channel? <==> |Strip(text)| > 0 && Strip(text)[0] == '@'
    ensures ClassifyRecipient(text).Channel? ==> ClassifyRecipient(text).username == Strip(text)
    ensures ClassifyRecipient(text).User? <==> IsDigits(Strip(text))
    ensures ClassifyRecipient(text).Rejected? <==>
      !(|Strip(text)| > 0 && Strip(text)[0] == '@') && !IsDigits(Strip(text))
  {
    var t := Strip(text);
    if IsDigits(t) {
      assert t[0] != '@';
    }
  }

  /** A user id written out in decimal is classified as that user. */
  lemma RecipientOfShow(n: nat)
    ensures ClassifyRecipient(Show(n)) == User(n)
  {
    var s := ShowNat(n);
    StripTight(s);
    ShowNatValue(n);
    assert s[0] != '@';
  }

  /** A channel username with no trailing whitespace is classified as that channel. */
  lemma RecipientOfChannel(name: string)
    requires name == [] || !IsSpace(name[|name| - 1])
    ensures ClassifyRecipient("@" + name) == Channel("@" + name)
  {
    StripTight("@" + name);
  }

  /** target_user_id as stored for an accepted recipient. */
  function TargetUserId(r: Recipient): Option<int> {
    if r.User? then Some(r.id) else None
  }

  /** target_chat_id as stored for an accepted recipient. */
  function TargetChatId(r: Recipient): Option<string> {
    if r.Channel? then Some(r.username) else None
  }

  /** An accepted recipient fills exactly one of the two target fields. */
  lemma ExactlyOneTarget(r: Recipient)
    requires !r.Rejected?
    ensures TargetUserId(r).Some? != TargetChatId(r).Some?
  {
  }

  /** On a text with nothing to strip, the classification reads the text itself. */
  lemma ClassifyTight(s: string)
    requires s == [] || (!IsSpace(s[0]) && !IsSpace(s[|s| - 1]))
    ensures ClassifyRecipient(s).Channel? <==> StartsWith(s, "@")
    ensures ClassifyRecipient(s).User? ==> IsDigits(s) && ClassifyRecipient(s).id == DigitsValue(s)
    ensures ClassifyRecipient(s).Rejected? <==> !StartsWith(s, "@") && !IsDigits(s)
  {
    StripTight(s);
  }

  /** A text that, once stripped, starts with neither `@` nor a digit is rejected. */
  lemma RecipientRejected(s: string)
    requires |s| > 0 && !IsSpace(s[0]) && !IsSpace(s[|s| - 1])
    requires s[0] != '@' && !IsDigit(s[0])
    ensures ClassifyRecipient(s) == Rejected
  {
    StripTight(s);
  }

  /** A text of digits only is the user with that id; leading zeros are allowed. */
  lemma RecipientOfDigits(s: string)
    requires IsDigits(s)
    ensures ClassifyRecipient(s) == User(DigitsValue(s))
  {
    StripTight(s);
  }

  /** Sample recipients: `abc` and the empty text are rejected. */
  lemma RejectedSamples()
    ensures ClassifyRecipient("abc") == Rejected
    ensures ClassifyRecipient("") == Rejected
  {
    RecipientRejected("abc");
    ClassifyTight("");
  }

  /** Sample quantities: `3` is accepted, `0` and `-1` are not. */
  lemma QuantityNumberSamples()
    ensures ParseQuantity(Some("3")) == Some(3)
    ensures ParseQuantity(Some("0")) == None
    ensures ParseQuantity(Some("-1")) == None
  {
    QuantityOfShow(3);
    QuantityOfShow(0);
    QuantityOfShow(-1);
    assert Show(-1) == "-1";
  }

  /** Sample quantities: `abc` and a message without text are not accepted. */
  lemma QuantityTextSamples()
    ensures ParseQuantity(Some("abc")) == None
    ensures ParseQuantity(None) == None
  {
    var abc := "abc";
    StripTight(abc);
    assert !IsDigit(abc[0]) && abc[0] != '-' && abc[0] != '+';
  }
}
