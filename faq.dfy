/**
 * Answers to the frequently asked questions and the keyword routing that
 * recognises them in the user's words.
 */
module Faq {
  import opened Wrappers
  import opened Text
  import opened TimeUtils
  import opened Records

  const FaqIntents: seq<string> := ["faq_hours", "faq_address", "faq_services", "faq_pricing"]

  const PricingReply := "Pricing depends on the service 😊 Which service are you looking for? (Haircut / Facial / etc.)"

  /** `handle_faq_reply`: the answer to an FAQ intent, or `None` for any other intent. */
  function HandleFaqReply(intent: string, cfg: Config): (r: Option<string>)
    ensures r.Some? <==> intent in FaqIntents
    ensures intent == "faq_hours" ==>
      r == Some("We’re open from " + FormatTimeForUser(cfg.StartText()) + " to " + FormatTimeForUser(cfg.EndText()) + ".")
    ensures intent == "faq_services" ==>
      r == Some("We offer: " + Join(cfg.services, ", ") + ". Which one would you like to book?")
    ensures intent == "faq_address" ==>
      r == Some("We’re located at: " + cfg.location.GetOr("our salon location") + " 📍")
    ensures intent == "faq_pricing" ==> r == Some(PricingReply)
  {
    if intent == "faq_hours" then
      Some("We’re open from " + FormatTimeForUser(cfg.StartText()) + " to " + FormatTimeForUser(cfg.EndText()) + ".")
    else if intent == "faq_address" then
      Some("We’re located at: " + cfg.location.GetOr("our salon location") + " 📍")
    else if intent == "faq_services" then
      Some("We offer: " + Join(cfg.services, ", ") + ". Which one would you like to book?")
    else if intent == "faq_pricing" then Some(PricingReply)
    else None
  }

  const HoursWords: seq<string> := ["hours", "open", "close", "timing", "working hours"]
  const AddressWords: seq<string> := ["address", "location", "where are you", "where r you", "located"]
  const ServicesWords: seq<string> := ["services", "service list", "what do you offer", "do you do"]
  const PricingWords: seq<string> := ["price", "pricing", "cost", "how much", "charges", "$"]

  /** `infer_faq_intent_from_text`: lower-case substring tests in the order hours, address, services, pricing. */
  function InferFaqIntent(text: string): (r: Option<string>)
    ensures r.Some? ==> r.value in FaqIntents
    ensures r == Some("faq_hours") <==> ContainsAny(Lower(text), HoursWords)
    ensures r == Some("faq_address") <==> !ContainsAny(Lower(text), HoursWords) && ContainsAny(Lower(text), AddressWords)
    ensures r == Some("faq_services") <==>
      !ContainsAny(Lower(text), HoursWords) && !ContainsAny(Lower(text), AddressWords)
      && ContainsAny(Lower(text), ServicesWords)
    ensures r == Some("faq_pricing") <==>
      !ContainsAny(Lower(text), HoursWords) && !ContainsAny(Lower(text), AddressWords)
      && !ContainsAny(Lower(text), ServicesWords) && ContainsAny(Lower(text), PricingWords)
    ensures r.None? <==>
      !ContainsAny(Lower(text), HoursWords) && !ContainsAny(Lower(text), AddressWords)
      && !ContainsAny(Lower(text), ServicesWords) && !ContainsAny(Lower(text), PricingWords)
  {
    var t := Lower(text);
    if ContainsAny(t, HoursWords) then Some("faq_hours")
    else if ContainsAny(t, AddressWords) then Some("faq_address")
    else if ContainsAny(t, ServicesWords) then Some("faq_services")
    else if ContainsAny(t, PricingWords) then Some("faq_pricing")
    else None
  }

  /** Every recognised question has an answer. */
  lemma InferredHasReply(text: string, cfg: Config)
    requires InferFaqIntent(text).Some?
    ensures HandleFaqReply(InferFaqIntent(text).value, cfg).Some?
  {
  }

  /** Hours win over every other topic: "what are your hours and prices?" is about hours. */
  lemma HoursFirst(text: string)
    requires Contains(Lower(text), "hours")
    ensures InferFaqIntent(text) == Some("faq_hours")
  {
    assert "hours" in HoursWords;
  }
}
