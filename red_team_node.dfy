/** The critique branch (src/nodes/red_team_node.py): an adversarial review of the draft. */
module RedTeamNode {
  import opened Wrappers
  import opened Text
  import opened Messages
  import opened SupervisorStates

  /** Drafts shorter than this are not reviewed. */
  const MinDraftLength := 50
  const PassToken := "PASS"
  /** A response containing the pass token counts as a pass only below this length. */
  const PassResponseLimit := 20
  const RedTeamAuthor := "Red Team Adversary"
  const RedTeamSeverity := 8
  /** The warning sign U+26A0 U+FE0F, a space, then the fixed headline. */
  const FeedbackPrefix := "\U{26A0}\U{FE0F} ADVERSARIAL FEEDBACK DETECTED: "

  /** `"PASS" in content and len(content) < 20`. */
  predicate IsPass(content: string)
  {
    Contains(content, PassToken) && |content| < PassResponseLimit
  }

  /** Whether the draft is reviewed at all: `not draft or len(draft) < 50` is the skip test. */
  predicate Reviewed(draft: string)
  {
    !(|draft| == 0 || |draft| < MinDraftLength)
  }

  /**
   * `red_team_node`. `response` is the critic model's answer to the review prompt
   * built from `draft`; it is consulted only when the draft is reviewed.
   */
  function RedTeam(draft: string, response: string): (u: Update)
    ensures !Reviewed(draft) ==> u == NoUpdate
    ensures Reviewed(draft) && IsPass(response) ==> u == NoUpdate
    ensures Reviewed(draft) && !IsPass(response) ==>
      && Keys(u) == {ActiveCritiquesKey, MessagesKey}
      && u.activeCritiques == Some([NewCritique(RedTeamAuthor, response, RedTeamSeverity)])
      && u.messages == Some([SystemMessage(FeedbackPrefix + response)])
  {
    if !Reviewed(draft) then NoUpdate
    else if IsPass(response) then NoUpdate
    else
      var u := NoUpdate.(
        activeCritiques := Some([Critique(RedTeamAuthor, response, RedTeamSeverity, false)]),
        messages := Some([SystemMessage(FeedbackPrefix + response)]));
      assert Keys(u) == {ActiveCritiquesKey, MessagesKey} by {
        forall k: Key ensures k in Keys(u) <==> k in {ActiveCritiquesKey, MessagesKey} { }
      }
      u
  }

  /** A draft under 50 characters (the empty one included) is never critiqued. */
  lemma ShortDraftNoCritique(draft: string, response: string)
    requires |draft| < MinDraftLength
    ensures RedTeam(draft, response) == NoUpdate
  {
  }

  /** A response of 20 characters or more is a critique even when it contains `PASS`. */
  lemma LongPassStillCritiques(draft: string, response: string)
    requires |draft| >= MinDraftLength && |response| >= PassResponseLimit
    ensures RedTeam(draft, response).activeCritiques.Some?
    ensures RedTeam(draft, response).activeCritiques.value[0].concern == response
  {
  }

  /** The exact token is a pass; so is a short response that merely contains it. */
  lemma ShortPassIsPass(draft: string, prefix: string, suffix: string)
    requires |draft| >= MinDraftLength && |prefix| + |suffix| < PassResponseLimit - 4
    ensures RedTeam(draft, prefix + PassToken + suffix) == NoUpdate
  {
    var r := prefix + PassToken + suffix;
    assert r[|prefix|..|prefix| + 4] == PassToken;
    assert OccursAt(r, PassToken, |prefix|);
  }

  /**
   * Every critique the branch emits is unaddressed, has severity 8, and its concern
   * can be read back out of the appended message.
   */
  lemma CritiqueMatchesMessage(draft: string, response: string)
    requires RedTeam(draft, response).activeCritiques.Some?
    ensures var u := RedTeam(draft, response);
      && |u.activeCritiques.value| == 1
      && !u.activeCritiques.value[0].addressed
      && u.activeCritiques.value[0].severity == RedTeamSeverity
      && u.messages.Some? && |u.messages.value| == 1
      && u.messages.value[0].content[|FeedbackPrefix|..] == u.activeCritiques.value[0].concern
  {
  }

  /** The branch writes only critiques and messages. */
  lemma RedTeamWritesOnlyCritiquesAndMessages(draft: string, response: string)
    ensures Keys(RedTeam(draft, response)) <= {ActiveCritiquesKey, MessagesKey}
  {
  }
}
