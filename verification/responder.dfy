/** The automated responder `generate_simple_response`: the message is
    lower-cased and tested, in a fixed order, for keyword substrings; the
    first group that matches picks one of four canned replies. */
module Responder {

  const GreetingReply := "Hello! I'm here to help you. How can I assist you today?"
  const LoginReply := "I can help you with login issues. You can reset your password by clicking 'Forgot Password' on the login page."
  const ThanksReply := "You're very welcome! Is there anything else I can help you with?"
  const FallbackReply := "I understand your concern. Could you provide more details so I can better assist you?"

  const GreetingWords: seq<string> := ["hello", "hi", "hey"]
  const LoginWords: seq<string> := ["password", "login"]
  const ThanksWords: seq<string> := ["thank", "thanks"]

  /** Lower-casing of one character; only ASCII capitals are folded. */
  function LowerChar(c: char): char {
    if 'A' <= c <= 'Z' then (c as int + 32) as char else c
  }

  /** `message.lower()` over ASCII capitals. */
  function Lower(s: string): (r: string)
    ensures |r| == |s|
    ensures forall i :: 0 <= i < |s| ==> r[i] == LowerChar(s[i])
  {
    if s == [] then [] else [LowerChar(s[0])] + Lower(s[1..])
  }

  /** `w` occurs in `s` starting at position `i`. */
  ghost predicate OccursAt(s: string, w: string, i: int) {
    0 <= i && i + |w| <= |s| && s[i..i + |w|] == w
  }

  /** Python's `w in s` on strings: `w` is a contiguous substring of `s`. */
  function Contains(s: string, w: string): (b: bool)
    ensures b <==> exists i :: OccursAt(s, w, i)
    decreases |s|
  {
    if |w| > |s| then false
    else if s[..|w|] == w then (assert OccursAt(s, w, 0); true)
    else
      var b := Contains(s[1..], w);
      ContainsShift(s, w);
      b
  }

  /** An occurrence in `s` not at position 0 is an occurrence in `s[1..]`, and back. */
  lemma ContainsShift(s: string, w: string)
    requires |w| <= |s| && s[..|w|] != w
    ensures (exists i :: OccursAt(s, w, i)) <==> (exists i :: OccursAt(s[1..], w, i))
  {
    if i :| OccursAt(s, w, i) {
      assert i != 0;
      assert s[1..][i - 1..i - 1 + |w|] == s[i..i + |w|];
      assert OccursAt(s[1..], w, i - 1);
    }
    if i :| OccursAt(s[1..], w, i) {
      assert s[1..][i..i + |w|] == s[i + 1..i + 1 + |w|];
      assert OccursAt(s, w, i + 1);
    }
  }

  /** `any(word in s for word in words)`. */
  function ContainsAny(s: string, words: seq<string>): (b: bool)
    ensures b <==> exists k :: 0 <= k < |words| && Contains(s, words[k])
  {
    if words == [] then false else Contains(s, words[0]) || ContainsAny(s, words[1..])
  }

  /** `generate_simple_response(message)`. */
  function Respond(message: string): (r: string)
    ensures r in {GreetingReply, LoginReply, ThanksReply, FallbackReply}
    ensures r == GreetingReply <==> ContainsAny(Lower(message), GreetingWords)
    ensures r == LoginReply <==>
      !ContainsAny(Lower(message), GreetingWords) && ContainsAny(Lower(message), LoginWords)
    ensures r == ThanksReply <==>
      && !ContainsAny(Lower(message), GreetingWords)
      && !ContainsAny(Lower(message), LoginWords)
      && ContainsAny(Lower(message), ThanksWords)
  {
    var m := Lower(message);
    if ContainsAny(m, GreetingWords) then GreetingReply
    else if ContainsAny(m, LoginWords) then LoginReply
    else if ContainsAny(m, ThanksWords) then ThanksReply
    else FallbackReply
  }

  /** Lower-casing twice is lower-casing once. */
  lemma {:induction false} LowerIdempotent(s: string)
    ensures Lower(Lower(s)) == Lower(s)
  {
    if s != [] {
      LowerIdempotent(s[1..]);
      assert Lower(s)[1..] == Lower(s[1..]);
    }
  }

  /** Matching is case-insensitive: messages that lower-case alike get the same
      reply; in particular a message and its lower-cased form do. */
  lemma RespondIgnoresCase(a: string, b: string)
    requires Lower(a) == Lower(b)
    ensures Respond(a) == Respond(b)
    ensures Respond(Lower(a)) == Respond(a)
  {
    LowerIdempotent(a);
  }

  /** Groups are tried in order and the first match wins: a greeting word
      decides the reply whatever else the message holds. */
  lemma GreetingTakesPrecedence(message: string, k: nat)
    requires k < |GreetingWords| && Contains(Lower(message), GreetingWords[k])
    ensures Respond(message) == GreetingReply
  {
  }

  /** A login word decides the reply unless a greeting word is present. */
  lemma LoginBeforeThanks(message: string, k: nat)
    requires !ContainsAny(Lower(message), GreetingWords)
    requires k < |LoginWords| && Contains(Lower(message), LoginWords[k])
    ensures Respond(message) == LoginReply
  {
  }

  /** Every occurrence of "thanks" is an occurrence of "thank", so the third
      group behaves as the single keyword "thank". */
  lemma ThanksGroupIsThank(s: string)
    ensures ContainsAny(s, ThanksWords) <==> Contains(s, "thank")
  {
    if Contains(s, "thanks") {
      var i :| OccursAt(s, "thanks", i);
      assert s[i..i + 5] == s[i..i + 6][..5];
      assert OccursAt(s, "thank", i);
    }
  }

  /** Keywords are matched as substrings, not words: "this" contains "hi", so
      a message about a password that also says "this" gets the greeting, not
      the login help. */
  lemma SubstringNotWord(message: string)
    requires Contains(Lower(message), "password")
    requires Contains(Lower(message), "this")
    ensures Respond(message) == GreetingReply
  {
    var m := Lower(message);
    var i :| OccursAt(m, "this", i);
    assert m[i + 1..i + 3] == m[i..i + 4][1..3];
    assert OccursAt(m, GreetingWords[1], i + 1);
  }
}
