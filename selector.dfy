/** The paginated reaction selector of plugins/selector.py as objects whose
    fields change in place: a Selector (pages, the shown page, the posted
    message), a RoleSelector that turns picks into role changes, and the
    plugin's module-level state (the selectors being watched and the time of
    each user's last pick). Chat-service calls are recorded as effects. */
module Selector {
  import opened Common
  import opened SelectorSpec

  type MsgId = nat
  type UserId = nat

  /** What a selector asks of the chat service, in order. */
  datatype Effect =
    | SendEmbed(embed: Embed)
    | EditEmbed(msg: MsgId, embed: Embed)
    | AddReaction(msg: MsgId, emoji: string)

  /** The callback a reaction fires, with the label it is called with. */
  datatype Invocation = Invocation(func: Callback, text: string)

  /** Python list indexing: a negative index counts from the end. */
  function PyIndex(i: int, len: nat): (r: Option<nat>)
    ensures r.Some? <==> -(len as int) <= i < len
    ensures r.Some? ==> r.value < len && (r.value == i || r.value == len + i)
  {
    if 0 <= i < len then Some(i) else if -(len as int) <= i < 0 then Some(len + i) else None
  }

  /** One reaction per entry of a page, in the page's order. */
  function Reactions(msg: MsgId, es: seq<Entry>): seq<Effect> {
    seq(|es|, j requires 0 <= j < |es| => AddReaction(msg, es[j].emoji))
  }

  /** The reactions added for page k are its markers, SITEMS[0] onwards, in
      order, one to MAX_ROWS of them. */
  lemma PageReactions(title: string, footer: string, items: seq<Item>, k: nat, msg: MsgId)
    requires k < |Pages(title, footer, items)|
    ensures var r := Reactions(msg, Pages(title, footer, items)[k].entries);
      && 1 <= |r| <= MAX_ROWS
      && forall j :: 0 <= j < |r| ==> r[j] == AddReaction(msg, SITEMS[j])
  {
    var es := Pages(title, footer, items)[k].entries;
    PageSizes(title, footer, items, k);
    forall j | 0 <= j < |es| ensures es[j].emoji == SITEMS[j] {
      PageEntry(title, footer, items, k, j);
    }
  }

  function InvocationOf(e: Option<Entry>): Option<Invocation> {
    match e
    case None => None
    case Some(entry) => Some(Invocation(entry.func, entry.text))
  }

  /** The loop of `set_items`: walks the mapping in order, labelling each
      item with the next marker and closing a page every MAX_ROWS items;
      what is left forms a last page titled "(part k/N)" after a full page
      and with the plain title otherwise. */
  method Paginate(title: string, footer: string, callDict: seq<Item>) returns (total: nat, pages: seq<Page>)
    ensures total == TotalPages(|callDict|) && pages == Pages(title, footer, callDict)
  {
    total := |callDict| / MAX_ROWS + (if |callDict| % MAX_ROWS != 0 then 1 else 0);
    pages := [];
    var crtIdx: nat := 0;
    var embStr := "";
    var partCnt: nat := 1;
    var emojiToFunc: seq<Entry> := [];
    var i := 0;
    assert total == TotalPages(|callDict|);
    ghost var full: nat := 0;
    ghost var start: nat := 0;
    while i < |callDict|
      invariant partCnt == full + 1 && crtIdx == i - start
      invariant Paging(title, footer, callDict, total, full, start, i, emojiToFunc, embStr, pages)
    {
      PagingStep(title, footer, callDict, total, full, start, i, emojiToFunc, embStr, pages, crtIdx, partCnt);
      var item := callDict[i];
      var crtEmoji := Marker(crtIdx);
      var entry := Entry(crtEmoji, item.func, item.text);
      emojiToFunc := emojiToFunc + [entry];
      var line := Line(entry);
      embStr := embStr + line;
      crtIdx := crtIdx + 1;
      if crtIdx >= MAX_ROWS {
        pages := pages + [Page(Embed(PartTitle(title, partCnt, total), embStr, footer), emojiToFunc)];
        crtIdx := 0;
        embStr := "";
        partCnt := partCnt + 1;
        emojiToFunc := [];
        full, start := full + 1, i + 1;
      }
      i := i + 1;
    }
    PagingDone(title, footer, callDict, total, full, start, emojiToFunc, embStr, pages);
    if embStr != "" {
      if partCnt > 1 {
        pages := pages + [Page(Embed(PartTitle(title, partCnt, total), embStr, footer), emojiToFunc)];
      } else {
        pages := pages + [Page(Embed(title, embStr, footer), emojiToFunc)];
      }
    }
  }


  class Selector {
    var shownPage: int
    const title: string
    const footer: string
    var msg: Option<MsgId>
    var totalPages: nat
    var embeds: seq<Page>
    /** The entries of the page last sent (`crt_emoji_to_func`). */
    var crtEntries: seq<Entry>
    var effects: seq<Effect>
    /** The mapping last given to SetItems. */
    ghost var items: seq<Item>

    /** The pages are always those of the last mapping. */
    ghost predicate Valid()
      reads this
    {
      embeds == Pages(title, footer, items) && totalPages == TotalPages(|items|)
    }

    constructor(title: string, footer: string, callDict: seq<Item>)
      ensures Valid() && items == callDict
      ensures this.title == title && this.footer == footer
      ensures shownPage == 0 && msg == None && crtEntries == [] && effects == []
    {
      this.title := title;
      this.footer := footer;
      shownPage := 0;
      msg := None;
      crtEntries := [];
      effects := [];
      new;
      SetItems(callDict);
    }

    /** Cuts the mapping into pages of at most MAX_ROWS items. */
    method SetItems(callDict: seq<Item>)
      modifies this`totalPages, this`embeds, this`items
      ensures Valid() && items == callDict
    {
      totalPages, embeds := Paginate(title, footer, callDict);
      items := callDict;
    }

    /** The message this selector was posted as, if any. */
    function GetMsgId(): Option<MsgId>
      reads this
    {
      msg
    }

    /** Whether `id` names the message this selector was posted as. */
    predicate HasMsgId(id: MsgId)
      reads this
      ensures HasMsgId(id) <==> GetMsgId() == Some(id)
    {
      msg.Some? && id == msg.value
    }

    /** Shows the current page: posts it (with its reactions) the first time,
        edits the posted message afterwards. */
    method SendOnePage(newId: MsgId) returns (r: Outcome)
      modifies this`msg, this`crtEntries, this`effects
      ensures PyIndex(shownPage, |embeds|).None? ==>
                r == Fail(IndexError) && msg == old(msg) && crtEntries == old(crtEntries) && effects == old(effects)
      ensures PyIndex(shownPage, |embeds|).Some? ==>
                var page := embeds[PyIndex(shownPage, |embeds|).value];
                && r == Pass
                && crtEntries == page.entries
                && msg == (if old(msg).None? then Some(newId) else old(msg))
                && effects == old(effects) +
                     if old(msg).None? then
                       [SendEmbed(page.embed)] +
                       (if totalPages > 1 then [AddReaction(newId, LARROW), AddReaction(newId, RARROW)] else []) +
                       Reactions(newId, page.entries)
                     else [EditEmbed(old(msg).value, page.embed)]
    {
      var idx := PyIndex(shownPage, |embeds|);
      if idx.None? {
        return Fail(IndexError);
      }
      var page := embeds[idx.value];
      var newMsg := false;
      if msg.None? {
        msg := Some(newId);
        effects := effects + [SendEmbed(page.embed)];
        newMsg := true;
      } else {
        effects := effects + [EditEmbed(msg.value, page.embed)];
      }
      crtEntries := page.entries;
      if newMsg {
        if totalPages > 1 {
          effects := effects + [AddReaction(newId, LARROW), AddReaction(newId, RARROW)];
        }
        ghost var before := effects;
        var k := 0;
        while k < |page.entries|
          invariant 0 <= k <= |page.entries|
          invariant effects == before + Reactions(newId, page.entries[..k])
          invariant crtEntries == page.entries && msg == Some(newId)
        {
          effects := effects + [AddReaction(newId, page.entries[k].emoji)];
          k := k + 1;
        }
        assert page.entries[..k] == page.entries;
      }
      return Pass;
    }

    /** A reaction on the selector's message: arrows step the shown page
        (wrapping at both ends), the page is redrawn, and the reacted marker
        picks an entry of the page now shown. The picked callback is returned
        for the caller to run; whatever it raises is swallowed. */
    method HandleEmoji(eventMsg: MsgId, emoji: string) returns (r: Result<Option<Invocation>>)
      modifies this`shownPage, this`msg, this`crtEntries, this`effects
      ensures msg == old(msg)
      ensures old(msg).None? ==> r == Err(AttributeError("id")) && unchanged(this)
      ensures old(msg).Some? && old(msg).value != eventMsg ==> r == Ok(None) && unchanged(this)
      ensures old(msg) == Some(eventMsg) ==>
                && shownPage == NextPage(old(shownPage), emoji, |embeds|)
                && (|embeds| == 0 ==>
                      r == Err(IndexError) && crtEntries == old(crtEntries) && effects == old(effects))
                && (|embeds| > 0 ==>
                      && 0 <= shownPage < |embeds|
                      && crtEntries == embeds[shownPage].entries
                      && effects == old(effects) + [EditEmbed(eventMsg, embeds[shownPage].embed)]
                      && r == Ok(InvocationOf(Lookup(embeds[shownPage].entries, emoji))))
    {
      if msg.None? {
        return Err(AttributeError("id"));
      }
      if eventMsg != msg.value {
        return Ok(None);
      }
      if emoji in [LARROW, RARROW] {
        if emoji == LARROW {
          shownPage := shownPage - 1;
        } else if emoji == RARROW {
          shownPage := shownPage + 1;
        }
      }
      if shownPage >= |embeds| {
        shownPage := 0;
      } else if shownPage < 0 {
        shownPage := |embeds| - 1;
      }
      var sent := SendOnePage(msg.value);
      if sent.Fail? {
        return Err(sent.error);
      }
      var picked := Lookup(crtEntries, emoji);
      if picked.None? {
        return Ok(None);
      }
      return Ok(Some(Invocation(picked.value.func, picked.value.text)));
    }
  }

  /** Where a role selector's roles come from: a list of role ids
      (RoleSelector) or every role between two named roles (RoleSelectorInterval). */
  datatype RoleSource =
    | RoleIds(ids: seq<nat>)
    | RoleRange(channel: nat, firstRole: string, lastRole: string)

  /** "Max selectable: N", or "Unlimited" for no cap (RoleSelector). */
  function RoleFooter(maxSelectable: int): string {
    "Max selectable: " + if maxSelectable > 0 then IntToString(maxSelectable) else "Unlimited"
  }

  /** "Max selectable: %d" (RoleSelectorInterval). */
  function IntervalFooter(maxSelectable: int): string {
    "Max selectable: " + IntToString(maxSelectable)
  }

  /** The first loop of `update_role_list`: the name-to-role dictionary of
      the fetched roles, and their names in the order fetched. */
  method IndexRoles(fetched: seq<(string, Role)>) returns (m: map<string, Role>, roleList: seq<string>)
    ensures m == PairMap(fetched) && roleList == Keys(fetched)
  {
    m := map[];
    roleList := [];
    var i := 0;
    while i < |fetched|
      invariant 0 <= i <= |fetched|
      invariant m == PairMap(fetched[..i]) && roleList == Keys(fetched[..i])
    {
      assert fetched[..i + 1][..i] == fetched[..i];
      m := m[fetched[i].0 := fetched[i].1];
      roleList := roleList + [fetched[i].0];
      i := i + 1;
    }
    assert fetched[..i] == fetched;
  }

  /** The second loop of `update_role_list`: one selector item per name, in
      order, each firing the selector's own `do_stuff`. */
  method RoleEntries(roleList: seq<string>) returns (roleDict: seq<Item>)
    ensures roleDict == RoleItems(roleList)
  {
    roleDict := [];
    var k := 0;
    while k < |roleList|
      invariant 0 <= k <= |roleList|
      invariant roleDict == RoleItems(roleList[..k])
    {
      assert roleList[..k + 1][..k] == roleList[..k];
      roleDict := roleDict + [Item(roleList[k], Callback.DoStuff)];
      k := k + 1;
    }
    assert roleList[..k] == roleList;
  }

  /** The loop of the interval variant of `update_role_list`: the roles by
      name (a later role wins a repeated name), and one item per name, in the
      order each name first appears. */
  method IndexRoleRange(fetched: seq<Role>) returns (m: map<string, Role>, roleList: seq<Item>)
    ensures m == NameMap(fetched) && roleList == RoleItems(Dedup(Names(fetched)))
  {
    m := map[];
    roleList := [];
    ghost var labels: seq<string> := [];
    var i := 0;
    assert fetched[..0] == [];
    while i < |fetched|
      invariant 0 <= i <= |fetched|
      invariant m == NameMap(fetched[..i])
      invariant labels == Dedup(Names(fetched[..i])) && roleList == RoleItems(labels)
    {
      var role := fetched[i];
      RangeStep(fetched, i);
      if role.name !in m {
        RoleItemsSnoc(labels, role.name);
        roleList := roleList + [Item(role.name, Callback.DoStuff)];
        labels := labels + [role.name];
      }
      m := m[role.name := role];
      assert m == NameMap(fetched[..i + 1]) && labels == Dedup(Names(fetched[..i + 1]));
      i := i + 1;
    }
    assert fetched[..i] == fetched;
  }

  /** A selector whose items are roles; picking one gives or takes the role. */
  class RoleSelector {
    const sel: Selector
    const server: nat
    const source: RoleSource
    const maxSelectable: int
    var lastRoleUpdate: int
    var nameToRole: map<string, Role>

    ghost predicate Valid()
      reads this, sel
    {
      sel.Valid()
    }

    /** RoleSelector(server, roles, title, max_selectable); `fetched` is what
        the server reports for the role ids if the list is fetched. */
    constructor(server: nat, roles: seq<nat>, title: string, maxSelectable: int, now: int,
                fetched: seq<(string, Role)>)
      requires DistinctKeys(fetched)
      ensures Valid() && fresh(sel)
      ensures this.server == server && source == RoleIds(roles) && this.maxSelectable == maxSelectable
      ensures sel.title == title && sel.footer == RoleFooter(maxSelectable)
      ensures sel.shownPage == 0 && sel.msg == None && sel.crtEntries == [] && sel.effects == []
      ensures now > ROLE_UPDATE_INTERVAL ==>
                lastRoleUpdate == now && nameToRole == PairMap(fetched) &&
                sel.items == RoleItems(SortByLower(Keys(fetched)))
      ensures now <= ROLE_UPDATE_INTERVAL ==> lastRoleUpdate == 0 && nameToRole == map[] && sel.items == []
    {
      sel := new Selector(title, RoleFooter(maxSelectable), []);
      this.server := server;
      source := RoleIds(roles);
      this.maxSelectable := maxSelectable;
      lastRoleUpdate := 0;
      nameToRole := map[];
      new;
      UpdateRoleList(now, fetched);
    }

    /** RoleSelectorInterval(server, channel, first_role, last_role, title,
        max_selectable); `fetched` is the server's roles from the first to the
        last named one, if the list is fetched. */
    constructor Interval(server: nat, channel: nat, firstRole: string, lastRole: string, title: string,
                         maxSelectable: int, now: int, fetched: seq<Role>)
      ensures Valid() && fresh(sel)
      ensures this.server == server && source == RoleRange(channel, firstRole, lastRole)
      ensures this.maxSelectable == maxSelectable
      ensures sel.title == title && sel.footer == IntervalFooter(maxSelectable)
      ensures sel.shownPage == 0 && sel.msg == None && sel.crtEntries == [] && sel.effects == []
      ensures now > ROLE_UPDATE_INTERVAL ==>
                lastRoleUpdate == now && nameToRole == NameMap(fetched) &&
                sel.items == RoleItems(Dedup(Names(fetched)))
      ensures now <= ROLE_UPDATE_INTERVAL ==> lastRoleUpdate == 0 && nameToRole == map[] && sel.items == []
    {
      sel := new Selector(title, IntervalFooter(maxSelectable), []);
      this.server := server;
      source := RoleRange(channel, firstRole, lastRole);
      this.maxSelectable := maxSelectable;
      lastRoleUpdate := 0;
      nameToRole := map[];
      new;
      UpdateRoleListInterval(now, fetched);
    }

    /** RoleSelector.update_role_list: at most once per ROLE_UPDATE_INTERVAL,
        reload the roles and list their names case-insensitively sorted. */
    method UpdateRoleList(now: int, fetched: seq<(string, Role)>)
      requires Valid() && DistinctKeys(fetched)
      modifies this`nameToRole, this`lastRoleUpdate, sel`totalPages, sel`embeds, sel`items
      ensures Valid()
      ensures now - old(lastRoleUpdate) > ROLE_UPDATE_INTERVAL ==>
                && nameToRole == PairMap(fetched)
                && lastRoleUpdate == now
                && sel.items == RoleItems(SortByLower(Keys(fetched)))
      ensures now - old(lastRoleUpdate) <= ROLE_UPDATE_INTERVAL ==> unchanged(this) && unchanged(sel)
    {
      if now - lastRoleUpdate > ROLE_UPDATE_INTERVAL {
        var m, roleList := IndexRoles(fetched);
        roleList := SortByLower(roleList);
        var roleDict := RoleEntries(roleList);
        nameToRole := m;
        lastRoleUpdate := now;
        sel.SetItems(roleDict);
      }
    }

    /** RoleSelectorInterval.update_role_list: at most once per
        ROLE_UPDATE_INTERVAL, reload the roles in server order, each name once. */
    method UpdateRoleListInterval(now: int, fetched: seq<Role>)
      requires Valid()
      modifies this`nameToRole, this`lastRoleUpdate, sel`totalPages, sel`embeds, sel`items
      ensures Valid()
      ensures now - old(lastRoleUpdate) > ROLE_UPDATE_INTERVAL ==>
                && nameToRole == NameMap(fetched)
                && lastRoleUpdate == now
                && sel.items == RoleItems(Dedup(Names(fetched)))
      ensures now - old(lastRoleUpdate) <= ROLE_UPDATE_INTERVAL ==> unchanged(this) && unchanged(sel)
    {
      if now - lastRoleUpdate > ROLE_UPDATE_INTERVAL {
        var m, roleList := IndexRoleRange(fetched);
        nameToRole := m;
        lastRoleUpdate := now;
        sel.SetItems(roleList);
      }
    }

    /** do_stuff: a user picked the role labelled `text`. `held` are the
        roles of this selector the user holds, in the order the server lists
        them. Picks closer than MIN_SEC apart only refresh the user's time. */
    method DoStuff(state: PluginState, author: UserId, text: string, held: seq<Role>, now: int)
      returns (r: Result<Assignment>)
      modifies state`lastUserAssign
      ensures author in old(state.lastUserAssign) && now - old(state.lastUserAssign)[author] < MIN_SEC ==>
                r == Ok(TooQuick) && state.lastUserAssign == old(state.lastUserAssign)[author := now]
      ensures !(author in old(state.lastUserAssign) && now - old(state.lastUserAssign)[author] < MIN_SEC) ==>
                if text !in nameToRole then
                  r == Err(KeyError(text)) && state.lastUserAssign == old(state.lastUserAssign)
                else
                  r == Ok(Decide(held, nameToRole[text], maxSelectable)) &&
                  state.lastUserAssign == old(state.lastUserAssign)[author := now]
    {
      if author in state.lastUserAssign && now - state.lastUserAssign[author] < MIN_SEC {
        state.lastUserAssign := state.lastUserAssign[author := now];
        return Ok(TooQuick);
      }
      if text !in nameToRole {
        return Err(KeyError(text));
      }
      var theRole := nameToRole[text];
      state.lastUserAssign := state.lastUserAssign[author := now];
      var i := 0;
      while i < |held|
        invariant 0 <= i <= |held|
        invariant forall j :: 0 <= j < i ==> held[j].id != theRole.id
      {
        if theRole.id == held[i].id {
          return Ok(Removed(theRole));
        }
        i := i + 1;
      }
      var removed: seq<Role> := [];
      if maxSelectable > 0 && |held| >= maxSelectable {
        var k := 0;
        while k < |held| - maxSelectable + 1
          invariant 0 <= k <= |held| - maxSelectable + 1
          invariant removed == held[..k]
        {
          removed := removed + [held[k]];
          k := k + 1;
        }
      }
      return Ok(Added(theRole, removed));
    }

    /** A reaction on this selector. RoleSelectorInterval reloads its role
        list first (with `fetched` as the server's answer); RoleSelector goes
        straight to the page logic. */
    method HandleEmoji(now: int, fetched: seq<Role>, eventMsg: MsgId, emoji: string)
      returns (r: Result<Option<Invocation>>)
      requires Valid()
      modifies this`nameToRole, this`lastRoleUpdate, sel
      ensures Valid() && sel.msg == old(sel.msg)
      ensures source.RoleRange? && now - old(lastRoleUpdate) > ROLE_UPDATE_INTERVAL ==>
                && sel.items == RoleItems(Dedup(Names(fetched)))
                && nameToRole == NameMap(fetched)
                && lastRoleUpdate == now
      ensures !(source.RoleRange? && now - old(lastRoleUpdate) > ROLE_UPDATE_INTERVAL) ==>
                && sel.items == old(sel.items)
                && nameToRole == old(nameToRole)
                && lastRoleUpdate == old(lastRoleUpdate)
      ensures old(sel.msg).None? ==>
                && r == Err(AttributeError("id"))
                && sel.shownPage == old(sel.shownPage)
                && sel.crtEntries == old(sel.crtEntries) && sel.effects == old(sel.effects)
      ensures old(sel.msg).Some? && old(sel.msg).value != eventMsg ==>
                && r == Ok(None)
                && sel.shownPage == old(sel.shownPage)
                && sel.crtEntries == old(sel.crtEntries) && sel.effects == old(sel.effects)
      ensures old(sel.msg) == Some(eventMsg) ==>
                && sel.shownPage == NextPage(old(sel.shownPage), emoji, |sel.embeds|)
                && (|sel.embeds| == 0 ==>
                      && r == Err(IndexError)
                      && sel.crtEntries == old(sel.crtEntries) && sel.effects == old(sel.effects))
                && (|sel.embeds| > 0 ==>
                      && 0 <= sel.shownPage < |sel.embeds|
                      && sel.crtEntries == sel.embeds[sel.shownPage].entries
                      && sel.effects == old(sel.effects) + [EditEmbed(eventMsg, sel.embeds[sel.shownPage].embed)]
                      && r == Ok(InvocationOf(Lookup(sel.embeds[sel.shownPage].entries, emoji))))
    {
      if source.RoleRange? {
        UpdateRoleListInterval(now, fetched);
      }
      r := sel.HandleEmoji(eventMsg, emoji);
    }
  }

  /** The plugin's module-level state: selectors watched for ever, the
      deque of recently posted ones, and each user's last pick time. */
  class PluginState {
    var permanentMessages: seq<Selector>
    var postedMessages: seq<Selector>
    var lastUserAssign: map<UserId, int>

    ghost predicate Valid()
      reads this
    {
      |postedMessages| <= POSTED_MAXLEN
    }

    constructor()
      ensures Valid()
      ensures permanentMessages == [] && postedMessages == [] && lastUserAssign == map[]
    {
      permanentMessages := [];
      postedMessages := [];
      lastUserAssign := map[];
    }

    /** `posted_messages.append`: a full deque drops its oldest selector. */
    method Post(s: Selector)
      requires Valid()
      modifies this`postedMessages
      ensures Valid()
      ensures postedMessages == Newest(old(postedMessages) + [s], POSTED_MAXLEN)
    {
      if |postedMessages| == POSTED_MAXLEN {
        postedMessages := postedMessages[1..] + [s];
      } else {
        postedMessages := postedMessages + [s];
      }
    }

    /** `posted_messages.remove`: drops the first occurrence, ValueError if none. */
    method Unpost(s: Selector) returns (r: Outcome)
      requires Valid()
      modifies this`postedMessages
      ensures Valid()
      ensures s !in old(postedMessages) ==> r.Fail? && r.error.ValueError? && postedMessages == old(postedMessages)
      ensures s in old(postedMessages) ==>
                && r == Pass
                && exists j :: 0 <= j < |old(postedMessages)| && old(postedMessages)[j] == s &&
                     s !in old(postedMessages)[..j] &&
                     postedMessages == old(postedMessages)[..j] + old(postedMessages)[j + 1..]
    {
      var j := 0;
      while j < |postedMessages|
        invariant 0 <= j <= |postedMessages|
        invariant s !in postedMessages[..j]
      {
        if postedMessages[j] == s {
          postedMessages := postedMessages[..j] + postedMessages[j + 1..];
          return Pass;
        }
        assert postedMessages[..j + 1] == postedMessages[..j] + [postedMessages[j]];
        j := j + 1;
      }
      assert postedMessages[..j] == postedMessages;
      return Fail(ValueError("deque.remove(x): x not in deque"));
    }

    /** `do_send`: remember the selector, then post its current page. */
    method DoSend(s: Selector, newId: MsgId) returns (r: Outcome)
      requires Valid()
      modifies this`postedMessages, s`msg, s`crtEntries, s`effects
      ensures Valid()
      ensures postedMessages == Newest(old(postedMessages) + [s], POSTED_MAXLEN)
      ensures PyIndex(s.shownPage, |s.embeds|).None? ==>
                && r == Fail(IndexError)
                && s.msg == old(s.msg) && s.crtEntries == old(s.crtEntries) && s.effects == old(s.effects)
      ensures PyIndex(s.shownPage, |s.embeds|).Some? ==>
                var page := s.embeds[PyIndex(s.shownPage, |s.embeds|).value];
                && r == Pass
                && s.crtEntries == page.entries
                && s.msg == (if old(s.msg).None? then Some(newId) else old(s.msg))
                && s.effects == old(s.effects) +
                     if old(s.msg).None? then
                       [SendEmbed(page.embed)] +
                       (if s.totalPages > 1 then [AddReaction(newId, LARROW), AddReaction(newId, RARROW)] else []) +
                       Reactions(newId, page.entries)
                     else [EditEmbed(old(s.msg).value, page.embed)]
    {
      Post(s);
      r := s.SendOnePage(newId);
    }

    /** The lookup of `parse_react`: the first permanent selector posted as
        `msgId`, else the first recently posted one, else none. */
    method ParseReact(msgId: MsgId) returns (found: Option<Selector>)
      ensures found == FindSelector(permanentMessages, postedMessages, msgId)
    {
      var i := 0;
      while i < |permanentMessages|
        invariant 0 <= i <= |permanentMessages|
        invariant forall j :: 0 <= j < i ==> !permanentMessages[j].HasMsgId(msgId)
      {
        if permanentMessages[i].HasMsgId(msgId) {
          return Some(permanentMessages[i]);
        }
        i := i + 1;
      }
      i := 0;
      while i < |postedMessages|
        invariant 0 <= i <= |postedMessages|
        invariant forall j :: 0 <= j < i ==> !postedMessages[j].HasMsgId(msgId)
      {
        if postedMessages[i].HasMsgId(msgId) {
          return Some(postedMessages[i]);
        }
        i := i + 1;
      }
      return None;
    }
  }

  /** The last n elements of s (all of s when it is shorter). */
  function Newest<T>(s: seq<T>, n: nat): (r: seq<T>)
    ensures |r| == if |s| <= n then |s| else n
    ensures r == s[|s| - |r|..]
  {
    if |s| <= n then s else s[|s| - n..]
  }

  /** Index of the first selector posted as `id`. */
  function FirstWithMsg(ss: seq<Selector>, id: MsgId): (r: Option<nat>)
    reads ss
    ensures r.Some? ==> r.value < |ss| && ss[r.value].HasMsgId(id) &&
                        forall j :: 0 <= j < r.value ==> !ss[j].HasMsgId(id)
    ensures r.None? ==> forall j :: 0 <= j < |ss| ==> !ss[j].HasMsgId(id)
  {
    if ss == [] then None
    else if ss[0].HasMsgId(id) then Some(0)
    else match FirstWithMsg(ss[1..], id)
      case None => None
      case Some(k) => Some(k + 1)
  }

  /** Permanent selectors take precedence over recently posted ones. */
  function FindSelector(permanent: seq<Selector>, posted: seq<Selector>, id: MsgId): (r: Option<Selector>)
    reads permanent, posted
  {
    match FirstWithMsg(permanent, id)
    case Some(i) => Some(permanent[i])
    case None =>
      match FirstWithMsg(posted, id)
      case Some(i) => Some(posted[i])
      case None => None
  }
}
