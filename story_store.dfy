/**
 * The session store: the list of saved stories and the id of the active one.
 * Every mutator rewrites, by id, only the active story and silently does
 * nothing when no story is active; inventory and spells behave as sets
 * keyed by name.
 */
module StoryStore {
  import opened Common

  datatype Role = Narrator | Player | SystemRole

  datatype StoryMessage = StoryMessage(
    id: string,
    role: Role,
    content: string,
    timestamp: int,
    diceRoll: Option<int>)

  datatype InventoryItem = InventoryItem(name: string, description: string)

  datatype StoryMemory = StoryMemory(
    characterName: Option<string>,
    currentLocation: Option<string>,
    keyEvents: seq<string>,
    npcsEncountered: seq<string>,
    beliefs: seq<string>,
    faction: Option<string>,
    summary: string,
    inventory: seq<InventoryItem>,
    spells: seq<InventoryItem>)

  datatype SavedStory = SavedStory(
    id: string,
    title: string,
    messages: seq<StoryMessage>,
    memory: StoryMemory,
    createdAt: int,
    updatedAt: int,
    messageCountAtLastExtraction: int)

  /** The memory of a freshly created story: nothing known yet. */
  function EmptyMemory(): StoryMemory
  {
    StoryMemory(None, None, [], [], [], None, "", [], [])
  }

  // ---------------------------------------------------------------------
  // Set-by-name lists (inventory and spells)

  predicate HasName(items: seq<InventoryItem>, name: string)
  {
    exists k :: 0 <= k < |items| && items[k].name == name
  }

  /** No two entries share a name. */
  predicate UniqueNames(items: seq<InventoryItem>)
  {
    forall i, j :: 0 <= i < j < |items| ==> items[i].name != items[j].name
  }

  /** Append `{name, description}` unless an entry with that name exists. */
  function AddByName(items: seq<InventoryItem>, name: string, description: string): seq<InventoryItem>
  {
    if HasName(items, name) then items else items + [InventoryItem(name, description)]
  }

  /** Keep, in order, every entry whose name differs from `name`. */
  function RemoveByName(items: seq<InventoryItem>, name: string): seq<InventoryItem>
  {
    if |items| == 0 then []
    else if items[0].name == name then RemoveByName(items[1..], name)
    else [items[0]] + RemoveByName(items[1..], name)
  }

  /** An existing name leaves the list as it is; a new one is appended at the
      end. After an add the name is present, a second identical add changes
      nothing, and an add never breaks name uniqueness. */
  lemma AddByNameSpec(items: seq<InventoryItem>, name: string, description: string)
    ensures HasName(items, name) ==> AddByName(items, name, description) == items
    ensures !HasName(items, name) ==> AddByName(items, name, description) == items + [InventoryItem(name, description)]
    ensures HasName(AddByName(items, name, description), name)
    ensures AddByName(AddByName(items, name, description), name, description) == AddByName(items, name, description)
    ensures UniqueNames(items) ==> UniqueNames(AddByName(items, name, description))
  {
    var r := AddByName(items, name, description);
    if !HasName(items, name) {
      assert r[|items|].name == name;
    }
  }

  /** Removal drops every entry with that name, keeps exactly the others,
      and distributes over concatenation (so the kept entries stay in order). */
  lemma {:induction false} RemoveByNameSpec(items: seq<InventoryItem>, name: string)
    ensures !HasName(RemoveByName(items, name), name)
    ensures forall x :: x in RemoveByName(items, name) <==> x in items && x.name != name
    ensures |RemoveByName(items, name)| <= |items|
  {
    if |items| > 0 {
      RemoveByNameSpec(items[1..], name);
      assert items == [items[0]] + items[1..];
    }
  }

  lemma {:induction false} RemoveByNameAppend(a: seq<InventoryItem>, b: seq<InventoryItem>, name: string)
    ensures RemoveByName(a + b, name) == RemoveByName(a, name) + RemoveByName(b, name)
  {
    if |a| > 0 {
      assert (a + b)[1..] == a[1..] + b;
      RemoveByNameAppend(a[1..], b, name);
    } else {
      assert a + b == b;
    }
  }

  /** Removing a name that is absent changes nothing; hence removing twice
      is the same as removing once. */
  lemma {:induction false} RemoveAbsentName(items: seq<InventoryItem>, name: string)
    requires !HasName(items, name)
    ensures RemoveByName(items, name) == items
  {
    if |items| > 0 {
      assert !HasName(items[1..], name) by {
        forall k | 0 <= k < |items[1..]| ensures items[1..][k].name != name {
          assert items[1..][k] == items[k + 1];
        }
      }
      RemoveAbsentName(items[1..], name);
      assert items == [items[0]] + items[1..];
    }
  }

  lemma RemoveByNameTwice(items: seq<InventoryItem>, name: string)
    ensures RemoveByName(RemoveByName(items, name), name) == RemoveByName(items, name)
  {
    RemoveByNameSpec(items, name);
    RemoveAbsentName(RemoveByName(items, name), name);
  }

  /** Adding and then removing a name leaves what removing alone leaves. */
  lemma AddThenRemove(items: seq<InventoryItem>, name: string, description: string)
    ensures RemoveByName(AddByName(items, name, description), name) == RemoveByName(items, name)
  {
    if !HasName(items, name) {
      RemoveByNameAppend(items, [InventoryItem(name, description)], name);
      assert RemoveByName([InventoryItem(name, description)], name) == [];
    }
  }

  /** Removal keeps names unique. */
  lemma {:induction false} RemoveKeepsUnique(items: seq<InventoryItem>, name: string)
    requires UniqueNames(items)
    ensures UniqueNames(RemoveByName(items, name))
  {
    if |items| > 0 {
      assert UniqueNames(items[1..]) by {
        forall i, j | 0 <= i < j < |items[1..]| ensures items[1..][i].name != items[1..][j].name {
          assert items[1..][i] == items[i + 1] && items[1..][j] == items[j + 1];
        }
      }
      RemoveKeepsUnique(items[1..], name);
      if items[0].name != name {
        var rest := RemoveByName(items[1..], name);
        RemoveByNameSpec(items[1..], name);
        forall j | 0 <= j < |rest| ensures items[0].name != rest[j].name {
          assert rest[j] in items[1..];
          var k :| 0 <= k < |items[1..]| && items[1..][k] == rest[j];
          assert items[k + 1] == rest[j];
        }
      }
    }
  }

  // ---------------------------------------------------------------------
  // Rewriting the active story

  /** The change a store mutator makes to the active story. */
  datatype Update =
    | SetMessages(messages: seq<StoryMessage>, now: int)
    | SetMemory(memory: StoryMemory, now: int)
    | SetTitle(title: string)
    | SetExtractionCount(count: int)
    | AddItem(name: string, description: string)
    | RemoveItem(name: string)
    | AddSpell(name: string, description: string)
    | RemoveSpell(name: string)

  function Apply(s: SavedStory, u: Update): SavedStory
  {
    match u
    case SetMessages(msgs, now) => s.(messages := msgs, updatedAt := now)
    case SetMemory(mem, now) => s.(memory := mem, updatedAt := now)
    case SetTitle(t) => s.(title := t)
    case SetExtractionCount(n) => s.(messageCountAtLastExtraction := n)
    case AddItem(n, d) => s.(memory := s.memory.(inventory := AddByName(s.memory.inventory, n, d)))
    case RemoveItem(n) => s.(memory := s.memory.(inventory := RemoveByName(s.memory.inventory, n)))
    case AddSpell(n, d) => s.(memory := s.memory.(spells := AddByName(s.memory.spells, n, d)))
    case RemoveSpell(n) => s.(memory := s.memory.(spells := RemoveByName(s.memory.spells, n)))
  }

  /** What each update leaves alone: the id and creation time always; item
      updates touch only the inventory, spell updates only the spells. */
  lemma ApplyFrame(s: SavedStory, u: Update)
    ensures Apply(s, u).id == s.id && Apply(s, u).createdAt == s.createdAt
    ensures (u.AddItem? || u.RemoveItem?) ==>
      Apply(s, u) == s.(memory := s.memory.(inventory := Apply(s, u).memory.inventory))
    ensures (u.AddSpell? || u.RemoveSpell?) ==>
      Apply(s, u) == s.(memory := s.memory.(spells := Apply(s, u).memory.spells))
    ensures !u.SetMessages? ==> Apply(s, u).messages == s.messages
  {
  }

  /** `stories.map(s => s.id === id ? update(s) : s)`. */
  function RewriteById(stories: seq<SavedStory>, id: string, u: Update): seq<SavedStory>
  {
    if |stories| == 0 then []
    else [if stories[0].id == id then Apply(stories[0], u) else stories[0]] + RewriteById(stories[1..], id, u)
  }

  /** Rewriting keeps the length and the order of ids, rewrites the stories
      with the given id and leaves every other story as it was. */
  lemma {:induction false} RewriteByIdSpec(stories: seq<SavedStory>, id: string, u: Update, k: nat)
    requires k < |stories|
    ensures |RewriteById(stories, id, u)| == |stories|
    ensures RewriteById(stories, id, u)[k].id == stories[k].id
    ensures stories[k].id != id ==> RewriteById(stories, id, u)[k] == stories[k]
    ensures stories[k].id == id ==> RewriteById(stories, id, u)[k] == Apply(stories[k], u)
  {
    if k > 0 {
      RewriteByIdSpec(stories[1..], id, u, k - 1);
    } else {
      RewriteByIdLength(stories, id, u);
    }
  }

  lemma {:induction false} RewriteByIdLength(stories: seq<SavedStory>, id: string, u: Update)
    ensures |RewriteById(stories, id, u)| == |stories|
  {
    if |stories| > 0 {
      RewriteByIdLength(stories[1..], id, u);
    }
  }

  /** Rewriting an id no story carries changes nothing. */
  lemma {:induction false} RewriteMissingId(stories: seq<SavedStory>, id: string, u: Update)
    requires forall k :: 0 <= k < |stories| ==> stories[k].id != id
    ensures RewriteById(stories, id, u) == stories
  {
    if |stories| > 0 {
      RewriteMissingId(stories[1..], id, u);
      assert stories == [stories[0]] + stories[1..];
    }
  }

  /** `stories.filter(s => s.id !== id)`. */
  function RemoveById(stories: seq<SavedStory>, id: string): seq<SavedStory>
  {
    if |stories| == 0 then []
    else if stories[0].id == id then RemoveById(stories[1..], id)
    else [stories[0]] + RemoveById(stories[1..], id)
  }

  /** Deletion distributes over concatenation, so the kept stories stay in
      their order and keep their multiplicity. */
  lemma {:induction false} RemoveByIdAppend(a: seq<SavedStory>, b: seq<SavedStory>, id: string)
    ensures RemoveById(a + b, id) == RemoveById(a, id) + RemoveById(b, id)
  {
    if |a| > 0 {
      assert (a + b)[1..] == a[1..] + b;
      RemoveByIdAppend(a[1..], b, id);
    } else {
      assert a + b == b;
    }
  }

  /** Deletion removes every story with that id and keeps exactly the others. */
  lemma {:induction false} RemoveByIdSpec(stories: seq<SavedStory>, id: string)
    ensures forall s :: s in RemoveById(stories, id) <==> s in stories && s.id != id
    ensures |RemoveById(stories, id)| <= |stories|
  {
    if |stories| > 0 {
      RemoveByIdSpec(stories[1..], id);
      assert stories == [stories[0]] + stories[1..];
    }
  }

  /** Position `k` holds the first story carrying `id`. */
  predicate FirstWithId(stories: seq<SavedStory>, id: string, k: int)
  {
    0 <= k < |stories| && stories[k].id == id && forall j :: 0 <= j < k ==> stories[j].id != id
  }

  /** `stories.find(s => s.id === id) || null`: the first story with that id. */
  function FindById(stories: seq<SavedStory>, id: string): (r: Option<SavedStory>)
    ensures r.Some? ==> r.value in stories && r.value.id == id
    ensures r.Some? ==> exists k :: FirstWithId(stories, id, k) && stories[k] == r.value
    ensures r.None? <==> forall k :: 0 <= k < |stories| ==> stories[k].id != id
  {
    if |stories| == 0 then None
    else if stories[0].id == id then Some(stories[0])
    else
      var r := FindById(stories[1..], id);
      assert r.Some? ==> exists k :: FirstWithId(stories, id, k) && stories[k] == r.value by {
        if r.Some? {
          var k :| FirstWithId(stories[1..], id, k) && stories[1..][k] == r.value;
          assert stories[k + 1] == r.value;
          forall j | 0 <= j < k + 1 ensures stories[j].id != id {
            if j > 0 { assert stories[j] == stories[1..][j - 1]; }
          }
          assert FirstWithId(stories, id, k + 1);
        }
      }
      r
  }

  /** The story a new session starts with. */
  function NewStory(id: string, now: int, title: string): SavedStory
  {
    SavedStory(id, title, [], EmptyMemory(), now, now, 0)
  }

  // ---------------------------------------------------------------------
  // The store

  class Store {
    var stories: seq<SavedStory>
    var activeStoryId: Option<string>

    constructor ()
      ensures stories == [] && activeStoryId == None
    {
      stories := [];
      activeStoryId := None;
    }

    /** `!activeStoryId` is false: an id is set and it is not the empty string. */
    predicate HasActive()
      reads this
    {
      Truthy(activeStoryId)
    }

    function GetActiveStory(): (r: Option<SavedStory>)
      reads this
      ensures r.Some? ==> HasActive() && r.value in stories && r.value.id == activeStoryId.value
      ensures r.Some? ==> exists k :: FirstWithId(stories, activeStoryId.value, k) && stories[k] == r.value
      ensures r.None? <==> !HasActive() || forall k :: 0 <= k < |stories| ==> stories[k].id != activeStoryId.value
    {
      if !HasActive() then None else FindById(stories, activeStoryId.value)
    }

    /** Prepends a fresh story, makes it active and returns its id. The id
        (a random UUID in the source), the clock and the locale date text
        are inputs. */
    method CreateStory(id: string, now: int, dateText: string) returns (newId: string)
      requires id != ""
      requires forall k :: 0 <= k < |stories| ==> stories[k].id != id
      modifies this
      ensures newId == id
      ensures stories == [NewStory(id, now, "Story - " + dateText)] + old(stories)
      ensures activeStoryId == Some(id)
      ensures GetActiveStory() == Some(stories[0])
    {
      var story := NewStory(id, now, "Story - " + dateText);
      stories := [story] + stories;
      activeStoryId := Some(id);
      newId := id;
    }

    /** Makes `id` active without checking that a story carries it. */
    method LoadStory(id: string)
      modifies this
      ensures activeStoryId == Some(id) && stories == old(stories)
    {
      activeStoryId := Some(id);
    }

    method DeleteStory(id: string)
      modifies this
      ensures stories == RemoveById(old(stories), id)
      ensures activeStoryId == if old(activeStoryId) == Some(id) then None else old(activeStoryId)
    {
      stories := RemoveById(stories, id);
      if activeStoryId == Some(id) {
        activeStoryId := None;
      }
    }

    method ClearActiveStory()
      modifies this
      ensures activeStoryId == None && stories == old(stories)
    {
      activeStoryId := None;
    }

    /** The common shape of every mutator below: no-op without an active
        story, otherwise rewrite the stories carrying the active id. */
    method UpdateActive(u: Update)
      modifies this
      ensures activeStoryId == old(activeStoryId)
      ensures !old(HasActive()) ==> stories == old(stories)
      ensures old(HasActive()) ==> stories == RewriteById(old(stories), activeStoryId.value, u)
    {
      if !HasActive() {
        return;
      }
      stories := RewriteById(stories, activeStoryId.value, u);
    }

    method SetActiveMessages(messages: seq<StoryMessage>, now: int)
      modifies this
      ensures activeStoryId == old(activeStoryId)
      ensures !old(HasActive()) ==> stories == old(stories)
      ensures old(HasActive()) ==> stories == RewriteById(old(stories), activeStoryId.value, SetMessages(messages, now))
    {
      UpdateActive(SetMessages(messages, now));
    }

    method UpdateMemory(memory: StoryMemory, now: int)
      modifies this
      ensures activeStoryId == old(activeStoryId)
      ensures !old(HasActive()) ==> stories == old(stories)
      ensures old(HasActive()) ==> stories == RewriteById(old(stories), activeStoryId.value, SetMemory(memory, now))
    {
      UpdateActive(SetMemory(memory, now));
    }

    method UpdateTitle(title: string)
      modifies this
      ensures activeStoryId == old(activeStoryId)
      ensures !old(HasActive()) ==> stories == old(stories)
      ensures old(HasActive()) ==> stories == RewriteById(old(stories), activeStoryId.value, SetTitle(title))
    {
      UpdateActive(SetTitle(title));
    }

    method SetMessageCountAtLastExtraction(count: int)
      modifies this
      ensures activeStoryId == old(activeStoryId)
      ensures !old(HasActive()) ==> stories == old(stories)
      ensures old(HasActive()) ==> stories == RewriteById(old(stories), activeStoryId.value, SetExtractionCount(count))
    {
      UpdateActive(SetExtractionCount(count));
    }

    method AddItemToActive(name: string, description: string)
      modifies this
      ensures activeStoryId == old(activeStoryId)
      ensures !old(HasActive()) ==> stories == old(stories)
      ensures old(HasActive()) ==> stories == RewriteById(old(stories), activeStoryId.value, AddItem(name, description))
    {
      UpdateActive(AddItem(name, description));
    }

    method RemoveItemFromActive(name: string)
      modifies this
      ensures activeStoryId == old(activeStoryId)
      ensures !old(HasActive()) ==> stories == old(stories)
      ensures old(HasActive()) ==> stories == RewriteById(old(stories), activeStoryId.value, RemoveItem(name))
    {
      UpdateActive(RemoveItem(name));
    }

    method AddSpellToActive(name: string, description: string)
      modifies this
      ensures activeStoryId == old(activeStoryId)
      ensures !old(HasActive()) ==> stories == old(stories)
      ensures old(HasActive()) ==> stories == RewriteById(old(stories), activeStoryId.value, AddSpell(name, description))
    {
      UpdateActive(AddSpell(name, description));
    }

    method RemoveSpellFromActive(name: string)
      modifies this
      ensures activeStoryId == old(activeStoryId)
      ensures !old(HasActive()) ==> stories == old(stories)
      ensures old(HasActive()) ==> stories == RewriteById(old(stories), activeStoryId.value, RemoveSpell(name))
    {
      UpdateActive(RemoveSpell(name));
    }
  }
}
