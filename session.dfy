/** The per-correspondent session record and the menu flow that drives it:
    stages, inbound events, outbound message kinds, the idle-expiry test, the
    check-in media test and the stage transition table. */
module Session {
  import opened Text

  /** Correspondent identifier (`msg.from`), e.g. "5568999990000@c.us". */
  type Id = string

  /** Wall-clock time in milliseconds (`Date.now()`). */
  type Millis = nat

  /** Timer handle returned by `setTimeout`. */
  type Handle = nat

  /** Identity of a session object (the record stored in `userSessions`). */
  type Ref = nat

  /** `etapa`: "menu", "cotacao", "checkin", "grupo", "instagram". */
  datatype Stage = Menu | Quote | CheckIn | Group | Instagram

  /** `msg.type` as far as the flow distinguishes it. */
  datatype MsgType = Image | Document | OtherType

  /** An inbound WhatsApp message. `mimetype` is what the downloaded media
      reports; it is only looked at when `hasMedia` holds. */
  datatype Event = Event(from: Id, body: string, hasMedia: bool, kind: MsgType,
                         mimetype: string, filename: string)

  /** The kinds of outbound text the engine sends, in place of the Portuguese
      texts themselves. */
  datatype Outbound =
    | MenuText        // welcome and the four options
    | QuotePrompt     // ask for destination and month
    | CheckInPrompt   // ask for the boarding pass photo or PDF
    | GroupText       // "click the link below"
    | GroupLink       // the promotions group invite
    | InstagramText   // "follow me on Instagram"
    | InstagramLink   // the Instagram profile
    | AgentQuote      // the agent has been called for the quote
    | AgentCheckIn    // the agent has been called for the check-in
    | Closing         // "session closed"
    | Promo           // the Instagram follow-up after closing

  /** A session record: `{etapa, finalizado, ultima, timeout}`; `timer` is
      `None` when the record has no `timeout` field. */
  datatype Record = Record(stage: Stage, finalized: bool, last: Millis, timer: Option<Handle>)

  /** One snapshot entry: the record without its timer handle. */
  datatype Saved = Saved(stage: Stage, finalized: bool, last: Millis)

  datatype Option<T> = None | Some(value: T)

  /** TEMPO_EXPIRACAO: five hours in milliseconds. */
  const IdleTimeout: nat := 5 * 60 * 60 * 1000

  /** Only private chats are served: their ids end in this suffix. */
  const ContactSuffix: string := "@c.us"

  /** The `expirou` test: no session, a session without a (truthy) `ultima`,
      or more than the idle timeout since `ultima`. A clock that went back
      (`now < last`) does not expire the session. */
  predicate Expired(cur: Option<Record>, now: Millis)
  {
    cur.None? || cur.value.last == 0 || now - cur.value.last > IdleTimeout
  }

  /** The snapshot projection of one record: `timer` is dropped. */
  function Project(r: Record): Saved
  {
    Saved(r.stage, r.finalized, r.last)
  }

  /** The projection forgets the timer handle and nothing else: records that
      differ only in their handle project alike, and a record rebuilt from a
      saved entry, whatever handle it gets, projects back to that entry. */
  lemma ProjectForgetsTimer(r: Record, s: Saved, t: Option<Handle>)
    ensures Project(r.(timer := t)) == Project(r)
    ensures Project(Record(s.stage, s.finalized, s.last, t)) == s
    ensures Project(r) == s <==> r == Record(s.stage, s.finalized, s.last, r.timer)
  {
  }

  /** The check-in acceptance test: media must be present and be an image,
      or a document whose mimetype contains "pdf" or whose lower-cased file
      name ends in ".pdf". */
  predicate AcceptsCheckInMedia(ev: Event)
    // only an image or a document with media is ever accepted
    ensures AcceptsCheckInMedia(ev) ==> ev.hasMedia && ev.kind != OtherType
    // every image with media is accepted, whatever its name and mimetype
    ensures ev.hasMedia && ev.kind == Image ==> AcceptsCheckInMedia(ev)
    // a document is accepted on a "pdf" occurrence in the mimetype or a
    // ".pdf" ending of the file name in any letter case
    ensures ev.hasMedia && ev.kind == Document ==>
              (AcceptsCheckInMedia(ev) <==>
                 (exists i :: OccursAt(ev.mimetype, "pdf", i)) || EndsWith(Lower(ev.filename), ".pdf"))
  {
    ev.hasMedia &&
    (ev.kind == Image ||
     (ev.kind == Document &&
      (Includes(ev.mimetype, "pdf") || EndsWith(Lower(ev.filename), ".pdf"))))
  }

  /** What the flow decides for one event on a live session. */
  datatype Reply = Reply(stage: Stage, finalized: bool, sent: seq<Outbound>)

  /** The user asks to go back to the menu: "0" outside the menu. The menu is
      then sent by `enviarMenu`, which also re-arms the timer. */
  predicate ResetsToMenu(stage: Stage, body: string)
  {
    stage != Menu && body == "0"
  }

  /** The messages that hand the conversation to a human agent. */
  predicate IsAgentNotice(o: Outbound)
  {
    o == AgentQuote || o == AgentCheckIn
  }

  /** The stage/flag combinations the flow itself produces: the menu is never
      finalized, group and Instagram always are. */
  predicate WellStaged(stage: Stage, finalized: bool)
  {
    (stage == Menu ==> !finalized) && (stage in {Group, Instagram} ==> finalized)
  }

  /** The switch of `funil` on a session that has not expired: the menu
      choices, "0" back to the menu, and the single-shot quote and check-in
      hand-offs guarded by `finalized`. */
  function Transition(stage: Stage, finalized: bool, ev: Event): (r: Reply)
    // a hand-off happens only on a non-finalized stage, and finalizes it
    ensures (exists i :: 0 <= i < |r.sent| && IsAgentNotice(r.sent[i])) ==>
              !finalized && r.finalized && r.stage == stage && |r.sent| == 1
    // the menu is sent exactly on "0" outside the menu
    ensures (MenuText in r.sent) <==> ResetsToMenu(stage, ev.body)
    // outside the menu only "0" leaves the stage
    ensures stage != Menu && ev.body != "0" ==> r.stage == stage
    // a finalized stage stays finalized until "0"
    ensures stage != Menu && finalized && ev.body != "0" ==> r.finalized && r.sent == []
    // the flow keeps its own stage/flag discipline
    ensures WellStaged(stage, finalized) ==> WellStaged(r.stage, r.finalized)
  {
    if stage == Menu then
      match ev.body
      case "1" => Reply(Quote, false, [QuotePrompt])
      case "2" => Reply(CheckIn, false, [CheckInPrompt])
      case "3" => Reply(Group, true, [GroupText, GroupLink])
      case "4" => Reply(Instagram, true, [InstagramText, InstagramLink])
      case _ => Reply(stage, finalized, [])
    else if ev.body == "0" then
      Reply(Menu, false, [MenuText])
    else if !finalized then
      match stage
      case Quote => Reply(Quote, true, [AgentQuote])
      case CheckIn =>
        if AcceptsCheckInMedia(ev) then Reply(CheckIn, true, [AgentCheckIn])
        else Reply(CheckIn, false, [])
      case _ => Reply(stage, finalized, [])
    else
      Reply(stage, finalized, [])
  }
}
