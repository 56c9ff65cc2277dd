/**
 Which headline and which body paragraph the automatic acknowledgement
 (`auto_reply_html`) uses. The choice is made on the intent STRING: exactly
 "recruiter" and exactly "client" have their own text, and every other
 string, recognised or not, gets the general text. The surrounding HTML
 layout is the same for every reply and is not modelled.
 */
module Reply {
  import opened Intent

  const ReachingOut: string := "Thank you for reaching out"
  const GettingInTouch: string := "Thanks for getting in touch"

  /** The three body paragraphs the template can hold. */
  datatype Body =
    | Opportunity  // "...regarding an opportunity... exploring roles in AI..."
    | Project      // "...regarding a potential project or collaboration..."
    | Received     // "I've received your message and will review it shortly."

  /** The parts of the acknowledgement that vary: the headline, the greeted name, the body. */
  datatype Template<N> = Template(headline: string, greeted: N, body: Body)

  /** The branch selection of `auto_reply_html(name, intent)`. */
  function AutoReply<N>(name: N, intent: string): (r: Template<N>)
    ensures r.greeted == name
    ensures r.headline == GettingInTouch <==> intent == "client"
    ensures r.headline == ReachingOut <==> intent != "client"
    ensures r.body == Opportunity <==> intent == "recruiter"
    ensures r.body == Project <==> intent == "client"
    ensures r.body == Received <==> intent != "recruiter" && intent != "client"
  {
    if intent == "recruiter" then Template(ReachingOut, name, Opportunity)
    else if intent == "client" then Template(GettingInTouch, name, Project)
    else Template(ReachingOut, name, Received)
  }

  /** The body variant that belongs to each label. */
  function BodyFor(intent: Label): Body {
    match intent
    case Recruiter => Opportunity
    case Client => Project
    case General => Received
  }

  /**
   Fed with the name of a label, the template picks that label's body, and the
   "getting in touch" headline exactly for client messages.
   */
  lemma AutoReplyFollowsLabel<N>(name: N, intent: Label)
    ensures AutoReply(name, Name(intent)).body == BodyFor(intent)
    ensures AutoReply(name, Name(intent)).headline == GettingInTouch <==> intent == Client
  {
    match intent
    case Recruiter =>
      assert Name(intent) != "client";
    case Client =>
    case General =>
      assert Name(intent) != "client" && Name(intent) != "recruiter";
  }

  /**
   Worked example of `AutoReply`'s contract: recruiter and general replies
   share a headline and differ only in their body.
   */
  lemma RecruiterAndGeneralShareHeadline<N>(name: N)
    ensures AutoReply(name, "recruiter").headline == AutoReply(name, "general").headline
    ensures AutoReply(name, "recruiter").body != AutoReply(name, "general").body
  {
  }
}
