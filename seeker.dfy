/** The seeker dialog of internal/bot/seeker.go: role reply, category choice, locality
    search and choice with the listing of matching helps, and the subscription button.
    Every handler is a transition of the chat's dialog; the outcome of each `Api.Send`
    and of each service call is an input. */
module SeekerFlow {
  import opened Wrappers
  import opened Checkbox
  import opened Keyboard
  import opened Translate
  import opened Transport
  import opened Handle
  import opened Session
  import VolunteerFlow

  /** `maxSubscriptionsPerUser` */
  const MaxSubscriptionsPerUser := 5

  /** The callback data of a listed item's delete button: the command, "|", the id. */
  function CallbackData(cmd: string, id: string): (r: string)
    ensures |r| == |cmd| + 1 + |id| && r[..|cmd|] == cmd && r[|cmd|] == '|' && r[|cmd| + 1..] == id
  {
    cmd + "|" + id
  }

  /** Reading callback data back: the text before the first "|" and the rest. */
  function SplitCallback(data: string): Option<(string, string)> {
    if data == [] then None
    else if data[0] == '|' then Some(("", data[1..]))
    else match SplitCallback(data[1..])
      case None => None
      case Some(p) => Some(([data[0]] + p.0, p.1))
  }

  /** A command without "|" and any id are recovered from the callback data. No source
      line splits the data; this checks only that the format can be decoded. */
  lemma {:induction false} CallbackRoundTrip(cmd: string, id: string)
    requires '|' !in cmd
    ensures SplitCallback(CallbackData(cmd, id)) == Some((cmd, id))
  {
    if cmd == [] {
      assert CallbackData(cmd, id) == "|" + id;
    } else {
      assert CallbackData(cmd, id)[1..] == CallbackData(cmd[1..], id);
      CallbackRoundTrip(cmd[1..], id);
      assert [cmd[0]] + cmd[1..] == cmd;
    }
  }

  /** The last category whose name equals the text (the category loop has no break). */
  function LastMatch(categories: seq<CategoryTranslated>, text: string): (r: Option<nat>)
    ensures r.Some? ==> r.value < |categories| && categories[r.value].name == text
    ensures r.Some? ==> forall j :: r.value < j < |categories| ==> categories[j].name != text
    ensures r.None? ==> forall j :: 0 <= j < |categories| ==> categories[j].name != text
  {
    if categories == [] then None
    else if categories[|categories| - 1].name == text then Some(|categories| - 1)
    else LastMatch(categories[..|categories| - 1], text)
  }

  /** The category a reply leaves selected: the last exact match, or the earlier choice. */
  function ChosenCategory(categories: seq<CategoryTranslated>, text: string, previous: Option<CategoryTranslated>): Option<CategoryTranslated> {
    match LastMatch(categories, text)
    case Some(i) => Some(categories[i])
    case None => previous
  }

  /** `handleSeekerUserRoleReply`: without a user id or a count the handler fails and
      changes nothing; at the subscription quota the session is deleted and the limit
      message sent, formatted with the help quota; otherwise the dialog gets role seeker
      and an empty seeker (the volunteer payload is left as it was), the categories are
      offered two per row, and the step advances only if that prompt was sent. */
  method SeekerUserRoleReply(m: MessageHandler, u: Update, sendOk: bool) returns (err: bool, sent: seq<Outgoing>)
    requires ChatID(u).Some? && ChatID(u).value in m.dialogs && m.dialogs[ChatID(u).value].Valid()
    modifies m, m.DialogOf(ChatID(u).value)`role, m.DialogOf(ChatID(u).value)`seeker, m.DialogOf(ChatID(u).value)`next
    ensures var chat := ChatID(u).value;
            var d := old(m.dialogs[chat]);
            var count := if UserID(u).Some? then m.service.subscriptionsCountByUser(UserID(u).value) else Err(Failure);
            && (count.Err? ==> err && sent == [] && m.dialogs == old(m.dialogs) && unchanged(d))
            && (count.Ok? && count.value >= MaxSubscriptionsPerUser ==>
                  && m.dialogs == old(m.dialogs) - {chat} && unchanged(d)
                  && sent == [Outgoing(chat, Limit(ErrorSubscriptionsLimitExceededTr, VolunteerFlow.MaxHelpsPerUser), HideKeyboard)]
                  && err == !sendOk)
            && (count.Ok? && count.value < MaxSubscriptionsPerUser ==>
                  && m.dialogs == old(m.dialogs)
                  && d.role == RoleSeeker && d.volunteer == old(d.volunteer)
                  && d.seeker != null && fresh(d.seeker)
                  && d.seeker.category.None? && d.seeker.localities == [] && d.seeker.locality.None?
                  && d.next == (if sendOk then UserCategory else old(d.next))
                  && sent == [Outgoing(chat, Prompt(SeekerCategoryRequestTr), ReplyKeyboard(Pairs(Names(m.categories))))]
                  && err == !sendOk
                  && (sendOk || !old(d.next).Seeking() ==> d.Valid()))
  {
    var chat := ChatID(u).value;
    var uid := UserID(u);
    if uid.None? {
      return true, [];
    }
    var count := m.service.subscriptionsCountByUser(uid.value);
    if count.Err? {
      return true, [];
    }
    if count.value >= MaxSubscriptionsPerUser {
      m.Delete(chat);
      sent := [Outgoing(chat, Limit(ErrorSubscriptionsLimitExceededTr, VolunteerFlow.MaxHelpsPerUser), HideKeyboard)];
      return !sendOk, sent;
    }
    ghost var names := Names(m.categories);
    var keyboardButtons: seq<seq<string>> := [];
    var i := 0;
    while i < |m.categories|
      invariant 0 <= i <= |m.categories|
      invariant keyboardButtons == Pairs(names[..i])
      invariant unchanged(m) && unchanged(m.dialogs[chat])
    {
      PairsStep(names, i);
      if |keyboardButtons| == 0 || |keyboardButtons[|keyboardButtons| - 1]| == 2 {
        keyboardButtons := keyboardButtons + [[m.categories[i].name]];
      } else {
        keyboardButtons := keyboardButtons[..|keyboardButtons| - 1] +
                           [keyboardButtons[|keyboardButtons| - 1] + [m.categories[i].name]];
      }
      i := i + 1;
    }
    assert names[..i] == names;
    var d := m.Get(chat);
    d.role := RoleSeeker;
    d.seeker := new Seeker();
    sent := [Outgoing(chat, Prompt(SeekerCategoryRequestTr), ReplyKeyboard(keyboardButtons))];
    if !sendOk {
      return true, sent;
    }
    d.next := UserCategory;
    return false, sent;
  }

  /** `handleUserCategoryReply`: the last category named exactly by the text is chosen
      (an earlier choice survives a text that names none); with no category at all it
      only prompts again, otherwise it asks for the locality and advances once sent. */
  method UserCategoryReply(m: MessageHandler, u: Update, sendOk: bool) returns (err: bool, sent: seq<Outgoing>)
    requires u.message.Some? && ChatID(u).Some? && ChatID(u).value in m.dialogs
    requires m.dialogs[ChatID(u).value].Valid() && m.dialogs[ChatID(u).value].seeker != null
    modifies m.DialogOf(ChatID(u).value)`next, m.DialogOf(ChatID(u).value).seeker`category
    ensures var chat := ChatID(u).value;
            var d := m.dialogs[chat];
            var chosen := ChosenCategory(m.categories, u.message.value.text, old(d.seeker.category));
            && d.seeker.category == chosen
            && (chosen.None? ==>
                  d.next == old(d.next) && sent == [Outgoing(chat, Prompt(ErrorChooseOptionTr), NoMarkup)] && err == !sendOk)
            && (chosen.Some? ==>
                  && d.next == (if sendOk then SeekerLocalityText else old(d.next))
                  && sent == [Outgoing(chat, Prompt(UserLocalityRequestTr), HideKeyboard)] && err == !sendOk)
            && d.Valid()
  {
    var chat := ChatID(u).value;
    var d := m.Get(chat);
    var text := u.message.value.text;
    ghost var previous := d.seeker.category;
    var i := 0;
    while i < |m.categories|
      invariant 0 <= i <= |m.categories|
      invariant d.seeker.category == ChosenCategory(m.categories[..i], text, previous)
      invariant d.next == old(d.next)
    {
      assert m.categories[..i + 1][..i] == m.categories[..i];
      if m.categories[i].name == text {
        d.seeker.category := Some(m.categories[i]);
      }
      i := i + 1;
    }
    assert m.categories[..i] == m.categories;
    if d.seeker.category.None? {
      sent := [Outgoing(chat, Prompt(ErrorChooseOptionTr), NoMarkup)];
      return !sendOk, sent;
    }
    sent := [Outgoing(chat, Prompt(UserLocalityRequestTr), HideKeyboard)];
    if !sendOk {
      return true, sent;
    }
    d.next := SeekerLocalityText;
    return false, sent;
  }

  /** The outcome of the seeker's locality search on the service's answer `res`: an
      error changes nothing and sends nothing, no match asks again, and candidates are
      stored and the step advanced before the offer is sent, whatever the send does. */
  predicate LocalityTextOutcome(chat: int, res: Result<seq<Locality>>, sendOk: bool, err: bool, sent: seq<Outgoing>,
                                next0: Step, ls0: seq<Locality>, next1: Step, ls1: seq<Locality>)
  {
    match res
    case Err(_) => err && sent == [] && next1 == next0 && ls1 == ls0
    case Ok(ls) =>
      if ls == [] then
        sent == [Outgoing(chat, Prompt(ErrorPleaseTryAgainTr), HideKeyboard)] && err == !sendOk &&
        next1 == next0 && ls1 == ls0
      else
        sent == [Outgoing(chat, Prompt(UserLocalityReplyTr), ReplyKeyboard(LocalityRows(ls)))] && err == !sendOk &&
        next1 == SeekerLocalityButton && ls1 == ls
  }

  /** `handleSeekerLocalityTextReply`: the raw text is searched, without normalisation. */
  method SeekerLocalityTextReply(m: MessageHandler, u: Update, sendOk: bool) returns (err: bool, sent: seq<Outgoing>)
    requires u.message.Some? && ChatID(u).Some? && ChatID(u).value in m.dialogs
    requires m.dialogs[ChatID(u).value].Valid()
    requires m.dialogs[ChatID(u).value].next.SeekerLocalityText? || m.dialogs[ChatID(u).value].next.SeekerLocalityButton?
    modifies m.DialogOf(ChatID(u).value)`next, m.DialogOf(ChatID(u).value).seeker`localities
    ensures var d := m.dialogs[ChatID(u).value];
            && d.Valid()
            && LocalityTextOutcome(ChatID(u).value, m.service.autocompleteLocality(u.message.value.text),
                                   sendOk, err, sent, old(d.next), old(d.seeker.localities), d.next, d.seeker.localities)
  {
    var chat := ChatID(u).value;
    var res := m.service.autocompleteLocality(u.message.value.text);
    if res.Err? {
      return true, [];
    }
    var localities := res.value;
    if |localities| == 0 {
      sent := [Outgoing(chat, Prompt(ErrorPleaseTryAgainTr), HideKeyboard)];
      return !sendOk, sent;
    }
    var keyboardButtons := LocalityKeyboard(localities);
    var d := m.Get(chat);
    d.seeker.localities := localities;
    d.next := SeekerLocalityButton;
    sent := [Outgoing(chat, Prompt(UserLocalityReplyTr), ReplyKeyboard(keyboardButtons))];
    return !sendOk, sent;
  }

  /** The first card whose send fails, counting the cards from 1. */
  function FirstFailure(sendOk: nat -> bool, n: nat): (r: Option<nat>)
    ensures r.Some? ==> 1 <= r.value <= n && !sendOk(r.value) && forall k :: 1 <= k < r.value ==> sendOk(k)
    ensures r.None? ==> forall k :: 1 <= k <= n ==> sendOk(k)
  {
    if n == 0 then None
    else match FirstFailure(sendOk, n - 1)
      case Some(k) => Some(k)
      case None => if sendOk(n) then None else Some(n)
  }

  /** One help card per help, in order. */
  function Cards(chat: int, helps: seq<HelpView>): (r: seq<Outgoing>)
    ensures |r| == |helps| && forall i :: 0 <= i < |helps| ==> r[i] == Outgoing(chat, HelpCard(helps[i].id), HideKeyboard)
  {
    seq(|helps|, i requires 0 <= i < |helps| => Outgoing(chat, HelpCard(helps[i].id), HideKeyboard))
  }

  /** The sends that follow a successful help query with results `hs`: the help cards,
      stopping at the first that fails, and after all of them the proposal. */
  predicate ListingOutcome(chat: int, hs: seq<HelpView>, sendOk: nat -> bool, subscribe: Markup,
                           err: bool, sent: seq<Outgoing>, reached: bool)
  {
    if hs == [] then
      reached && sent == [Outgoing(chat, Prompt(SeekerHelpsEmptyTr), subscribe)] && err == !sendOk(1)
    else
      var failed := FirstFailure(sendOk, |hs|);
      && (failed.Some? ==> err && !reached && sent == Cards(chat, hs[..failed.value]))
      && (failed.None? ==>
            reached && err == !sendOk(|hs| + 1) &&
            sent == Cards(chat, hs) + [Outgoing(chat, Prompt(SeekerSubscriptionProposalTr), subscribe)])
  }

  /** The card loop of the locality choice: `reached` tells whether the dialog moves on
      to the subscription button. */
  method SendListing(chat: int, hs: seq<HelpView>, sendOk: nat -> bool, subscribe: Markup)
    returns (err: bool, sent: seq<Outgoing>, reached: bool)
    ensures ListingOutcome(chat, hs, sendOk, subscribe, err, sent, reached)
  {
    if |hs| == 0 {
      return !sendOk(1), [Outgoing(chat, Prompt(SeekerHelpsEmptyTr), subscribe)], true;
    }
    sent := [];
    var k := 0;
    while k < |hs|
      invariant 0 <= k <= |hs|
      invariant forall j :: 1 <= j <= k ==> sendOk(j)
      invariant sent == Cards(chat, hs[..k])
    {
      sent := sent + [Outgoing(chat, HelpCard(hs[k].id), HideKeyboard)];
      assert Cards(chat, hs[..k + 1]) == Cards(chat, hs[..k]) + [Outgoing(chat, HelpCard(hs[k].id), HideKeyboard)];
      if !sendOk(k + 1) {
        FailureAt(sendOk, |hs|, k + 1);
        return true, sent, false;
      }
      k := k + 1;
    }
    assert hs[..k] == hs;
    sent := sent + [Outgoing(chat, Prompt(SeekerSubscriptionProposalTr), subscribe)];
    return !sendOk(|hs| + 1), sent, true;
  }

  /** `handleSeekerLocalityButtonReply`. Send number 0 is the "looking" notice (its
      failure is ignored), number k the k-th help card and the last one the subscription
      proposal. The first exact match becomes the locality; with none (and none from an
      earlier reply) the text is searched instead. A help-query error keeps the step;
      otherwise the proposal follows the cards, and the step reaches the subscription
      button unless a card failed to send. */
  method SeekerLocalityButtonReply(m: MessageHandler, u: Update, sendOk: nat -> bool) returns (err: bool, sent: seq<Outgoing>)
    requires u.message.Some? && ChatID(u).Some? && ChatID(u).value in m.dialogs
    requires m.dialogs[ChatID(u).value].Valid() && m.dialogs[ChatID(u).value].next.SeekerLocalityButton?
    modifies m.DialogOf(ChatID(u).value)`next, m.DialogOf(ChatID(u).value).seeker`localities
    modifies m.DialogOf(ChatID(u).value).seeker`locality
    ensures var chat := ChatID(u).value;
            var d := m.dialogs[chat];
            var s := d.seeker;
            var found := FindLocality(old(s.localities), u.message.value.text);
            var chosen := if found.Some? then Some(old(s.localities)[found.value]) else old(s.locality);
            var looking := Outgoing(chat, Prompt(SeekerLookingForVolunteersTr), NoMarkup);
            && d.Valid()
            && s.locality == chosen
            && (chosen.None? ==>
                  LocalityTextOutcome(chat, m.service.autocompleteLocality(u.message.value.text),
                                      sendOk(0), err, sent, old(d.next), old(s.localities), d.next, s.localities))
            && (chosen.Some? ==>
                  var helps := m.service.helpsByCategoryLocation(chosen.value.id, s.category.value.id);
                  && s.localities == old(s.localities)
                  && (helps.Err? ==> err && d.next == old(d.next) && sent == [looking])
                  && (helps.Ok? ==>
                        && |sent| >= 1 && sent[0] == looking
                        && (d.next == old(d.next) || d.next == SeekerSubscriptionBtn)
                        && ListingOutcome(chat, helps.value, sendOk, ReplyKeyboard([[m.Label(BtnOptionSubscribeTr)]]),
                                          err, sent[1..], d.next == SeekerSubscriptionBtn)))
  {
    var chat := ChatID(u).value;
    var d := m.Get(chat);
    var found := MatchLocality(d.seeker.localities, u.message.value.text);
    if found.Some? {
      d.seeker.locality := Some(d.seeker.localities[found.value]);
    }
    if d.seeker.locality.None? {
      err, sent := SeekerLocalityTextReply(m, u, sendOk(0));
      return;
    }
    var looking := Outgoing(chat, Prompt(SeekerLookingForVolunteersTr), NoMarkup);
    var helps := m.service.helpsByCategoryLocation(d.seeker.locality.value.id, d.seeker.category.value.id);
    if helps.Err? {
      return true, [looking];
    }
    var listing, reached;
    err, listing, reached := SendListing(chat, helps.value, sendOk, ReplyKeyboard([[m.Label(BtnOptionSubscribeTr)]]));
    sent := [looking] + listing;
    assert sent[1..] == listing;
    if reached {
      d.next := SeekerSubscriptionBtn;
    }
  }

  /** A failing send with no earlier failure is the first failure. */
  lemma {:induction false} FailureAt(sendOk: nat -> bool, n: nat, k: nat)
    requires 1 <= k <= n && !sendOk(k) && forall j :: 1 <= j < k ==> sendOk(j)
    ensures FirstFailure(sendOk, n) == Some(k)
  {
    if n > k {
      FailureAt(sendOk, n - 1, k);
    } else {
      assert FirstFailure(sendOk, n - 1).None?;
    }
  }

  /** `handleSeekerSubscriptionBtnReply`: any text but the subscribe label is ignored;
      a subscription that already exists is reported and the session kept; any other
      failure keeps the session silently; success deletes it and confirms. */
  method SeekerSubscriptionBtnReply(m: MessageHandler, u: Update, sendOk: bool)
    returns (err: bool, sent: seq<Outgoing>, request: Option<CreateSubscription>)
    requires u.message.Some? && ChatID(u).Some? && ChatID(u).value in m.dialogs
    requires m.dialogs[ChatID(u).value].Valid() && m.dialogs[ChatID(u).value].next.SeekerSubscriptionBtn?
    modifies m
    ensures var chat := ChatID(u).value;
            var s := old(m.dialogs[chat].seeker);
            var pressed := u.message.value.text == m.Label(BtnOptionSubscribeTr);
            && (!pressed || UserID(u).None? ==> request.None? && m.dialogs == old(m.dialogs) && sent == [])
            && (!pressed ==> !err)
            && (pressed && UserID(u).None? ==> err)
            && (pressed && UserID(u).Some? ==>
                  var req := CreateSubscription(UserID(u).value, s.category.value.id, s.locality.value.id);
                  var outcome := m.service.newSubscription(req);
                  && request == Some(req)
                  && (outcome == Some(AlreadyExists) ==>
                        m.dialogs == old(m.dialogs) && sent == [Outgoing(chat, Prompt(SeekerSubscriptionAlreadyExistsTr), NoMarkup)] && err == !sendOk)
                  && (outcome == Some(Failure) ==> m.dialogs == old(m.dialogs) && sent == [] && err)
                  && (outcome.None? ==>
                        m.dialogs == old(m.dialogs) - {chat} &&
                        sent == [Outgoing(chat, Prompt(SeekerSubscriptionCreateSuccessTr), HideKeyboard)] && err == !sendOk))
  {
    var chat := ChatID(u).value;
    if u.message.value.text != m.Label(BtnOptionSubscribeTr) {
      return false, [], None;
    }
    var uid := UserID(u);
    if uid.None? {
      return true, [], None;
    }
    var d := m.Get(chat);
    var req := CreateSubscription(uid.value, d.seeker.category.value.id, d.seeker.locality.value.id);
    request := Some(req);
    var outcome := m.service.newSubscription(req);
    if outcome.Some? {
      if outcome.value == AlreadyExists {
        sent := [Outgoing(chat, Prompt(SeekerSubscriptionAlreadyExistsTr), NoMarkup)];
        return !sendOk, sent, request;
      }
      return true, [], request;
    }
    m.Delete(chat);
    sent := [Outgoing(chat, Prompt(SeekerSubscriptionCreateSuccessTr), HideKeyboard)];
    return !sendOk, sent, request;
  }
}
