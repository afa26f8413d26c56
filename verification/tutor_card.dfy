/** The tutor card of the Browse Tutors list, in its two looks: the default
    card (avatar with an "available today" mark, bookmark, three skills,
    View Profile and Message buttons) and the modern card (the whole card
    opens the profile, a shield for top ratings, two skills). The card asks
    its host to act through callbacks; the message callback is optional. */
module TutorCard {
  import opened Seqs
  import opened Dates
  import opened MockData
  import opened App
  import opened Chips

  datatype Variant = Default | Modern

  /** The card's own state: whether the bookmark is set. It starts unset. */
  datatype Card = Card(saved: bool)

  const Init: Card := Card(false)

  /** The skill badges: three on the default card, two on the modern one. */
  function ChipLimit(v: Variant): nat
  {
    if v == Modern then 2 else 3
  }

  function SkillChips(v: Variant, t: Tutor): Preview<string>
  {
    ChipPreview(t.skills, ChipLimit(v))
  }

  /** The badges account for every skill: the shown ones plus the "+k". */
  lemma SkillChipsAccount(v: Variant, t: Tutor)
    ensures Count(SkillChips(v, t)) == |t.skills|
    ensures |SkillChips(v, t).shown| <= ChipLimit(v)
    ensures SkillChips(v, t).more.Some? <==> |t.skills| > ChipLimit(v)
  {
    ChipPreviewAccounts(t.skills, ChipLimit(v));
  }

  /** The shield over the avatar: modern card, rating 4.8 or more. */
  predicate ShowsShield(v: Variant, t: Tutor)
  {
    v == Modern && t.rating >= 4.8
  }

  /** The green "available today" marks: default card only, when one of the
      tutor's availability dates is the clock's day `today`. */
  predicate ShowsAvailableToday(v: Variant, t: Tutor, today: Date)
  {
    v == Default && AvailableOn(t, today)
  }

  /** Each badge belongs to one look; the availability mark shows exactly
      when looking the day up in the tutor's availability finds an entry. */
  lemma BadgesMeaning(v: Variant, t: Tutor, today: Date)
    ensures ShowsShield(v, t) ==> !ShowsAvailableToday(v, t, today)
    ensures ShowsAvailableToday(Default, t, today) <==> AvailabilityOn(t, today).Some?
    ensures !ShowsShield(Default, t) && !ShowsAvailableToday(Modern, t, today)
  {
    AvailableOnIff(t, today);
  }

  // ---------------------------------------------------------------------
  // Presses

  datatype Press = CardBody | ViewProfileButton | MessageButton | SaveButton

  /** The controls of each look: the modern card's body and View Profile
      button; the default card's View Profile, Message and bookmark. */
  predicate Offered(v: Variant, a: Press)
  {
    match a
    case CardBody => v == Modern
    case ViewProfileButton => true
    case MessageButton => v == Default
    case SaveButton => v == Default
  }

  /** What the card asks of its host. */
  datatype Request =
    | ViewProfile(tutorId: string)
    | OpenChat(tutorId: string, tutorName: string)
    | ChatNotice(tutorName: string)  // the "Opening chat" toast, when no callback
    | NoRequest

  datatype Reaction = Reaction(card: Card, request: Request)

  /** One press. The buttons stop the click there, so a press on a button
      of the modern card does not also count as a press on its body. */
  function Apply(c: Card, t: Tutor, hasOnMessage: bool, a: Press): Reaction
  {
    match a
    case CardBody => Reaction(c, ViewProfile(t.id))
    case ViewProfileButton => Reaction(c, ViewProfile(t.id))
    case MessageButton =>
      Reaction(c, if hasOnMessage then OpenChat(t.id, t.name) else ChatNotice(t.name))
    case SaveButton => Reaction(Card(!c.saved), NoRequest)
  }

  /** Only the bookmark changes the card, and it makes no request; every
      other press makes exactly one request about this tutor. */
  lemma ApplyMeaning(c: Card, t: Tutor, hasOnMessage: bool, a: Press)
    ensures a == SaveButton <==> Apply(c, t, hasOnMessage, a).card != c
    ensures Apply(c, t, hasOnMessage, a).request == NoRequest <==> a == SaveButton
    ensures Apply(c, t, hasOnMessage, a).request.ViewProfile? <==> a == CardBody || a == ViewProfileButton
    ensures Apply(c, t, hasOnMessage, a).request.ViewProfile? ==> Apply(c, t, hasOnMessage, a).request.tutorId == t.id
    ensures a == MessageButton ==>
      (Apply(c, t, hasOnMessage, a).request.OpenChat? <==> hasOnMessage)
  {
  }

  /** Two presses of the bookmark leave it as it was. */
  lemma SaveTwice(c: Card, t: Tutor, hasOnMessage: bool)
    ensures Apply(Apply(c, t, hasOnMessage, SaveButton).card, t, hasOnMessage, SaveButton).card == c
  {
  }

  // ---------------------------------------------------------------------
  // The Browse Tutors page as host

  /** The list page passes both callbacks: a profile request navigates to
      the profile with the tutor's id, a chat request opens the messages
      page without naming the tutor. */
  function TutorsPageHandles(s: State, r: Request): State
  {
    match r
    case ViewProfile(id) => Navigate(s, Id(TutorProfile), Some(PageData(Some(id))))
    case OpenChat(_, _) => Navigate(s, Id(Page.Messages), None)
    case _ => s
  }

  /** The list shows default cards. On a seeded tutor's card, "View
      Profile" shows that tutor's profile, and the profile looks up that
      very tutor; "Message" opens the messages page; the bookmark leaves the
      app where it was. */
  lemma CardOpensItsTutor(s: State, t: Tutor, a: Press)
    requires t in MockData.Tutors
    requires Offered(Default, a)
    ensures a == ViewProfileButton ==> Render(TutorsPageHandles(s, Apply(Init, t, true, a).request)) == TutorProfileView(t.id)
    ensures a == MessageButton ==> Render(TutorsPageHandles(s, Apply(Init, t, true, a).request)) == MessagesView
    ensures a == SaveButton ==> TutorsPageHandles(s, Apply(Init, t, true, a).request) == s
    ensures TutorById(MockData.Tutors, t.id) == Some(t)
  {
    SeedLookupOwn(t);
  }

  /** The Message button opens the messages page, but the tutor is not
      passed on: the payload is what it was. */
  lemma MessageForgetsTutor(s: State, t: Tutor)
    ensures Render(TutorsPageHandles(s, Apply(Init, t, true, MessageButton).request)) == MessagesView
    ensures TutorsPageHandles(s, Apply(Init, t, true, MessageButton).request).data == s.data
  {
  }
}
