/**
 The contact-message intent classifier (`detect_intent`): lower-case the
 message, then look for recruiter keywords, then for client keywords, and
 fall back to the general label. The recruiter test comes first, so a
 message that mentions both kinds of keyword is a recruiter message.
 */
module Intent {
  import opened Text

  /** The three labels the classifier can produce; nothing else is possible. */
  datatype Label = Recruiter | Client | General

  const RecruiterKeywords: seq<string> :=
    ["job", "role", "intern", "internship", "position", "hiring", "career"]

  const ClientKeywords: seq<string> :=
    ["project", "client", "freelance", "budget", "timeline", "collaboration"]

  /** The string the service uses for a label (the return value of `detect_intent`). */
  function Name(intent: Label): (r: string)
    ensures r in ["recruiter", "client", "general"]
  {
    match intent
    case Recruiter => "recruiter"
    case Client => "client"
    case General => "general"
  }

  /** Distinct labels have distinct names, so the string carries the whole label. */
  lemma NameInjective(a: Label, b: Label)
    requires Name(a) == Name(b)
    ensures a == b
  {
  }

  /**
   Reference meaning of "the message mentions one of `keywords`": some keyword
   starts at some position of the lower-cased message.
   */
  ghost predicate Mentions(message: string, keywords: seq<string>) {
    exists j: nat, i: nat :: j < |keywords| && OccursAt(Lower(message), keywords[j], i)
  }

  /** The `any(...)` test of the source decides the reference meaning exactly. */
  lemma MentionsDecided(message: string, keywords: seq<string>)
    ensures Mentions(message, keywords) <==> ContainsAny(Lower(message), keywords)
  {
    if ContainsAny(Lower(message), keywords) {
      var j :| 0 <= j < |keywords| && Contains(Lower(message), keywords[j]);
      var i: nat :| OccursAt(Lower(message), keywords[j], i);
    }
  }

  /** `detect_intent`: total, and priority recruiter > client > general. */
  function Classify(message: string): (r: Label)
    ensures r == Recruiter <==> Mentions(message, RecruiterKeywords)
    ensures r == Client <==>
      !Mentions(message, RecruiterKeywords) && Mentions(message, ClientKeywords)
    ensures r == General <==>
      !Mentions(message, RecruiterKeywords) && !Mentions(message, ClientKeywords)
  {
    var msg := Lower(message);
    MentionsDecided(message, RecruiterKeywords);
    MentionsDecided(message, ClientKeywords);
    if ContainsAny(msg, RecruiterKeywords) then Recruiter
    else if ContainsAny(msg, ClientKeywords) then Client
    else General
  }

  /** Classification ignores case: a message and its lower-cased form get the same label. */
  lemma ClassifyIgnoresCase(message: string)
    ensures Classify(Lower(message)) == Classify(message)
  {
    LowerIdempotent(message);
  }

  /** Two messages that differ only in the case of ASCII letters get the same label. */
  lemma ClassifySameUpToCase(a: string, b: string)
    requires Lower(a) == Lower(b)
    ensures Classify(a) == Classify(b)
  {
    ClassifyIgnoresCase(a);
    ClassifyIgnoresCase(b);
  }

  /** A recruiter keyword anywhere wins, whatever client keywords are also present. */
  lemma RecruiterKeywordWins(message: string, j: nat)
    requires j < |RecruiterKeywords|
    requires Contains(Lower(message), RecruiterKeywords[j])
    ensures Classify(message) == Recruiter
  {
    var i: nat :| OccursAt(Lower(message), RecruiterKeywords[j], i);
  }

  /** With no recruiter keyword, a client keyword anywhere gives the client label. */
  lemma ClientKeywordWithoutRecruiter(message: string, j: nat)
    requires j < |ClientKeywords|
    requires Contains(Lower(message), ClientKeywords[j])
    requires forall k :: 0 <= k < |RecruiterKeywords| ==> !Contains(Lower(message), RecruiterKeywords[k])
    ensures Classify(message) == Client
  {
    var i: nat :| OccursAt(Lower(message), ClientKeywords[j], i);
    assert !ContainsAny(Lower(message), RecruiterKeywords);
  }

  /** With neither kind of keyword anywhere, the label is general. */
  lemma NoKeywordIsGeneral(message: string)
    requires forall k :: 0 <= k < |RecruiterKeywords| ==> !Contains(Lower(message), RecruiterKeywords[k])
    requires forall k :: 0 <= k < |ClientKeywords| ==> !Contains(Lower(message), ClientKeywords[k])
    ensures Classify(message) == General
  {
    assert !ContainsAny(Lower(message), RecruiterKeywords);
    assert !ContainsAny(Lower(message), ClientKeywords);
  }

  /**
   Adding text around a message never takes away a keyword it already
   mentions: a recruiter message stays a recruiter message, and a client
   message becomes a recruiter or client message, never a general one.
   */
  lemma ClassifyInContext(p: string, message: string, q: string)
    ensures Classify(message) == Recruiter ==> Classify(p + message + q) == Recruiter
    ensures Classify(message) == Client ==> Classify(p + message + q) != General
  {
    var lowered := Lower(p + message + q);
    LowerAppend(p + message, q);
    LowerAppend(p, message);
    assert lowered == Lower(p) + Lower(message) + Lower(q);
    if Classify(message) == Recruiter {
      var j :| 0 <= j < |RecruiterKeywords| && Contains(Lower(message), RecruiterKeywords[j]);
      ContainsInContext(Lower(p), Lower(message), Lower(q), RecruiterKeywords[j]);
      assert ContainsAny(lowered, RecruiterKeywords);
    } else if Classify(message) == Client {
      var j :| 0 <= j < |ClientKeywords| && Contains(Lower(message), ClientKeywords[j]);
      ContainsInContext(Lower(p), Lower(message), Lower(q), ClientKeywords[j]);
      assert ContainsAny(lowered, ClientKeywords);
    }
  }

  /** The empty message mentions no keyword and is a general message. */
  lemma EmptyIsGeneral()
    ensures Classify("") == General
  {
    assert Lower("") == "";
    assert forall j :: 0 <= j < |RecruiterKeywords| ==> !Contains("", RecruiterKeywords[j]);
    assert forall j :: 0 <= j < |ClientKeywords| ==> !Contains("", ClientKeywords[j]);
  }

  /**
   Matching is by substring, not by whole word: "internal" is a recruiter
   message because it contains "intern", and so is "roles" through "role".
   */
  lemma SubstringNotWholeWord()
    ensures Classify("internal") == Recruiter
    ensures Classify("roles") == Recruiter
  {
    assert Lower("internal") == "internal";
    assert OccursAt("internal", RecruiterKeywords[2], 0);
    assert Lower("roles") == "roles";
    assert OccursAt("roles", RecruiterKeywords[1], 0);
  }

  /**
   Every message that mentions "internship" also mentions "intern", so the
   keyword "internship" never changes a label.
   */
  lemma InternshipImpliesIntern(s: string)
    requires Contains(s, "internship")
    ensures Contains(s, "intern")
  {
    var i: nat :| OccursAt(s, "internship", i);
    assert "intern" <= "internship";
    assert OccursAt(s, "intern", i);
  }

  /**
   Dropping "internship" from the recruiter keywords leaves the recruiter
   test unchanged for every text, so that keyword never changes a label.
   */
  lemma InternshipNeverChangesLabel(s: string)
    ensures ContainsAny(s, RecruiterKeywords)
      <==> ContainsAny(s, ["job", "role", "intern", "position", "hiring", "career"])
  {
    var fewer := ["job", "role", "intern", "position", "hiring", "career"];
    if ContainsAny(s, RecruiterKeywords) {
      var j :| 0 <= j < |RecruiterKeywords| && Contains(s, RecruiterKeywords[j]);
      if j == 3 {
        InternshipImpliesIntern(s);
        assert Contains(s, fewer[2]);
      } else {
        var jj := if j < 3 then j else j - 1;
        assert fewer[jj] == RecruiterKeywords[j];
        assert Contains(s, fewer[jj]);
      }
    }
    if ContainsAny(s, fewer) {
      var j :| 0 <= j < |fewer| && Contains(s, fewer[j]);
      var jj := if j < 3 then j else j + 1;
      assert RecruiterKeywords[jj] == fewer[j];
      assert Contains(s, RecruiterKeywords[jj]);
    }
  }

  /** The recruiter label, decided without the keyword "internship". */
  lemma RecruiterWithoutInternship(message: string)
    ensures Classify(message) == Recruiter
      <==> ContainsAny(Lower(message), ["job", "role", "intern", "position", "hiring", "career"])
  {
    InternshipNeverChangesLabel(Lower(message));
    MentionsDecided(message, RecruiterKeywords);
  }

  /**
   Worked examples, each stated for every spelling of the message that lowers
   to the given text (so "Freelance JOB opportunity" is covered too).
   */
  lemma RecruiterBeatsClientExample(message: string)
    requires Lower(message) == "freelance job opportunity"
    ensures Mentions(message, ClientKeywords)
    ensures Classify(message) == Recruiter
  {
    assert Lower(message)[0..][..9] == ClientKeywords[2];
    assert OccursAt(Lower(message), ClientKeywords[2], 0);
    assert OccursAt(Lower(message), RecruiterKeywords[0], 10);
  }

  /**
   Keywords are ruled out by naming, for each one, a letter the message does
   not use or a pair of adjacent letters the message never has ("ol" for
   "role" in the project-budget message).
   */
  lemma HiringExample(message: string)
    requires Lower(message) == "looking for a hiring opportunity"
    ensures Classify(message) == Recruiter
  {
    assert OccursAt(Lower(message), RecruiterKeywords[5], 14);
    RecruiterKeywordWins(message, 5);
  }

  lemma ProjectBudgetExample(message: string)
    requires Lower(message) == "let's discuss a project budget"
    ensures Classify(message) == Client
  {
    ProjectBudgetHasNoRecruiterKeyword();
    ProjectBudgetHasProject();
  }

  lemma ProjectBudgetHasNoRecruiterKeyword()
    ensures !ContainsAny("let's discuss a project budget", RecruiterKeywords)
  {
    MissingPairsRuleOutAll("let's discuss a project budget", RecruiterKeywords, [0, 1, 0, 0, 0, 0, 0],
      {('j', 'o'), ('o', 'l'), ('i', 'n'), ('p', 'o'), ('h', 'i'), ('c', 'a')});
  }

  lemma ProjectBudgetHasProject()
    ensures Contains("let's discuss a project budget", ClientKeywords[0])
  {
    var m := "let's discuss a project budget";
    assert m[16..][..7] == ClientKeywords[0];
    assert OccursAt(m, ClientKeywords[0], 16);
  }

  lemma PortfolioExample(message: string)
    requires Lower(message) == "hello, loved your portfolio!"
    ensures Classify(message) == General
  {
    PortfolioHasNoRecruiterKeyword();
    PortfolioHasNoClientKeyword();
  }

  lemma PortfolioHasNoRecruiterKeyword()
    ensures !ContainsAny("hello, loved your portfolio!", RecruiterKeywords)
  {
    MissingPairsRuleOutAll("hello, loved your portfolio!", RecruiterKeywords, [0, 0, 0, 0, 1, 0, 0],
      {('j', 'o'), ('r', 'o'), ('i', 'n'), ('o', 's'), ('h', 'i'), ('c', 'a')});
  }

  lemma PortfolioHasNoClientKeyword()
    ensures !ContainsAny("hello, loved your portfolio!", ClientKeywords)
  {
    MissingCharsRuleOutAll("hello, loved your portfolio!", ClientKeywords, "jccbnc", {'j', 'c', 'b', 'n'});
  }
}
