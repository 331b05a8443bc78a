/** The gesture-driven menu of gestureMenu.py: menu items whose selected
    option cycles through a list, a handler that tracks the selected item,
    and the gesture dispatcher that keeps a three-line window of item keys
    on the display. The gesture sensor is replaced by the gesture code passed
    in, and the display by the keys it shows. */
module Menu {
  import opened Wrappers
  import opened Lists

  /** One row of the menu data: item name, its options, the index of its default option. */
  datatype MenuEntry = MenuEntry(name: string, options: seq<string>, defaultIndex: int)

  /** What an item looks like from outside: its options and the selected one. */
  datatype ItemView = ItemView(options: seq<string>, selected: string)

  /** The exceptions updateDisplay can raise. */
  datatype MenuError = ValueError | IndexError

  /** Every default index is a valid Python index into its options list. */
  predicate EntriesWellFormed(data: seq<MenuEntry>) {
    forall i :: 0 <= i < |data| ==> -|data[i].options| <= data[i].defaultIndex < |data[i].options|
  }

  /** The item names, in input order. */
  function Names(data: seq<MenuEntry>): (names: seq<string>)
    ensures |names| == |data|
    ensures forall i :: 0 <= i < |data| ==> names[i] == data[i].name
  {
    if data == [] then [] else Names(data[..|data| - 1]) + [data[|data| - 1].name]
  }

  /** The item states right after construction: each name gets the default
      option of its entry, a later entry with the same name replacing an
      earlier one as a dictionary assignment does. */
  ghost function InitialView(data: seq<MenuEntry>): map<string, ItemView>
    requires EntriesWellFormed(data)
  {
    if data == [] then map[]
    else
      var e := data[|data| - 1];
      InitialView(data[..|data| - 1])[e.name := ItemView(e.options, PyIndex(e.options, e.defaultIndex))]
  }

  /** The keys of InitialView are exactly the names. */
  lemma {:induction false} InitialViewKeys(data: seq<MenuEntry>)
    requires EntriesWellFormed(data)
    ensures forall k :: k in InitialView(data) <==> k in Names(data)
  {
    if data != [] {
      var init := data[..|data| - 1];
      InitialViewKeys(init);
      assert Names(data) == Names(init) + [data[|data| - 1].name];
    }
  }

  /** With distinct names, every item starts at `options[defaultIndex]` of its own entry. */
  lemma {:induction false} InitialViewOfDistinct(data: seq<MenuEntry>, i: nat)
    requires EntriesWellFormed(data) && Distinct(Names(data)) && i < |data|
    ensures data[i].name in InitialView(data)
    ensures InitialView(data)[data[i].name]
         == ItemView(data[i].options, PyIndex(data[i].options, data[i].defaultIndex))
  {
    var init := data[..|data| - 1];
    if i < |data| - 1 {
      assert Names(init) == Names(data)[..|data| - 1];
      InitialViewOfDistinct(init, i);
      assert Names(data)[i] != Names(data)[|data| - 1];
    }
  }

  /** The view with item `k` moved `step` places through its options. */
  function WithOption(v: map<string, ItemView>, k: string, step: int): map<string, ItemView>
    requires k in v && v[k].selected in v[k].options
  {
    v[k := v[k].(selected := Neighbour(v[k].options, v[k].selected, step))]
  }

  /** The part of the menu state a gesture changes. */
  datatype MenuState = MenuState(selected: string, optionChanged: bool, view: map<string, ItemView>)

  /** The selected item is listed and has a state whose option is one of its options. */
  ghost predicate StateFits(s: MenuState, items: seq<string>) {
    && s.selected in items
    && (forall i | 0 <= i < |items| :: items[i] in s.view)
    && (forall k | k in s.view :: s.view[k].selected in s.view[k].options)
  }

  /** What getGesture does to the menu: 1 (down) selects the next item and
      2 (up) the previous one, both clearing the option-changed flag; 3 (left)
      moves the selected item to its previous option and 4 (right) to its
      next one, both setting the flag; any other code changes nothing. */
  ghost function AfterGesture(s: MenuState, items: seq<string>, g: int): (r: MenuState)
    requires StateFits(s, items)
    ensures r.view.Keys == s.view.Keys
    ensures StateFits(r, items)
  {
    if g == 1 then s.(selected := Neighbour(items, s.selected, 1), optionChanged := false)
    else if g == 2 then s.(selected := Neighbour(items, s.selected, -1), optionChanged := false)
    else if g == 3 then s.(optionChanged := true, view := WithOption(s.view, s.selected, -1))
    else if g == 4 then s.(optionChanged := true, view := WithOption(s.view, s.selected, 1))
    else s
  }

  /** Item moves wrap around the item list and touch no item's option. */
  lemma ItemMoves(s: MenuState, items: seq<string>, g: int)
    requires StateFits(s, items) && (g == 1 || g == 2)
    ensures var r := AfterGesture(s, items, g);
      var k := IndexFrom(items, s.selected, 0).value;
      && r.view == s.view
      && !r.optionChanged
      && r.selected == items[if g == 1 then (k + 1) % |items| else (k - 1) % |items|]
  {
  }

  /** Option moves change the selected item's option and nothing else. */
  lemma OptionMovesIsolated(s: MenuState, items: seq<string>, g: int, k: string)
    requires StateFits(s, items) && (g == 3 || g == 4) && k in s.view && k != s.selected
    ensures var r := AfterGesture(s, items, g);
      && r.selected == s.selected
      && r.optionChanged
      && r.view[k] == s.view[k]
      && r.view[s.selected].options == s.view[s.selected].options
      && r.view[s.selected].selected in s.view[s.selected].options
  {
  }

  /** Down then up restores the selected item, and left then right (or right
      then left) restores the selected option, when the lists hold no repeats. */
  lemma GestureRoundTrips(s: MenuState, items: seq<string>)
    requires StateFits(s, items) && Distinct(items) && Distinct(s.view[s.selected].options)
    ensures AfterGesture(AfterGesture(s, items, 1), items, 2) == s.(optionChanged := false)
    ensures AfterGesture(AfterGesture(s, items, 4), items, 3) == s.(optionChanged := true)
    ensures AfterGesture(AfterGesture(s, items, 3), items, 4) == s.(optionChanged := true)
  {
    NeighbourRoundTrip(items, s.selected);
    var v := s.view[s.selected];
    NeighbourRoundTrip(v.options, v.selected);
    assert WithOption(WithOption(s.view, s.selected, 1), s.selected, -1) == s.view;
    assert WithOption(WithOption(s.view, s.selected, -1), s.selected, 1) == s.view;
  }

  /** Gesture 0 is "no gesture": the state is left as it is. */
  lemma NoGestureNoChange(s: MenuState, items: seq<string>)
    requires StateFits(s, items)
    ensures AfterGesture(s, items, 0) == s
  {
  }

  /** One menu item and its currently selected option (class MenuItem). */
  class MenuItem {
    var itemStr: string
    var optionsList: seq<string>
    var selectedOption: string
    var isActive: bool

    ghost predicate Valid()
      reads this
    {
      selectedOption in optionsList
    }

    constructor (itemStr: string, optionsList: seq<string>, optionIndex: int)
      requires -|optionsList| <= optionIndex < |optionsList|
      ensures Valid()
      ensures this.itemStr == itemStr && this.optionsList == optionsList && !isActive
      ensures selectedOption == PyIndex(optionsList, optionIndex)
    {
      this.itemStr := itemStr;
      this.optionsList := optionsList;
      selectedOption := PyIndex(optionsList, optionIndex);
      isActive := false;
    }

    /** Select the option after the current one, wrapping to the first. */
    method SelectNextOption()
      requires Valid()
      modifies this`selectedOption
      ensures Valid()
      ensures selectedOption == Neighbour(optionsList, old(selectedOption), 1)
    {
      var i := (IndexFrom(optionsList, selectedOption, 0).value + 1) % |optionsList|;
      selectedOption := optionsList[i];
    }

    /** Select the option before the current one, wrapping to the last. */
    method SelectPrevOption()
      requires Valid()
      modifies this`selectedOption
      ensures Valid()
      ensures selectedOption == Neighbour(optionsList, old(selectedOption), -1)
    {
      var i := (IndexFrom(optionsList, selectedOption, 0).value - 1) % |optionsList|;
      selectedOption := optionsList[i];
    }
  }

  /** The item views of a dictionary of menu items. */
  ghost function ViewOf(d: map<string, MenuItem>): map<string, ItemView>
    reads d.Values
  {
    map k | k in d :: ItemView(d[k].optionsList, d[k].selectedOption)
  }

  lemma ViewOfUpdate(d: map<string, MenuItem>, k: string, item: MenuItem)
    ensures ViewOf(d[k := item]) == ViewOf(d)[k := ItemView(item.optionsList, item.selectedOption)]
  {
  }

  /** Distinct keys hold distinct MenuItem objects. */
  ghost predicate Injective(d: map<string, MenuItem>) {
    forall k, k' | k in d && k' in d && k != k' :: d[k] != d[k']
  }

  /** The dictionary holds a valid MenuItem, under its own name, for exactly
      the listed keys, and no object twice. */
  ghost predicate DictFits(dict: map<string, MenuItem>, items: seq<string>)
    reads dict.Values
  {
    && (forall k | k in dict :: dict[k].Valid() && dict[k].itemStr == k)
    && Injective(dict)
    && (forall i | 0 <= i < |items| :: items[i] in dict)
    && (forall k | k in dict :: k in items)
  }

  lemma DictFitsAdd(dict: map<string, MenuItem>, items: seq<string>, k: string, item: MenuItem)
    requires DictFits(dict, items) && item.Valid() && item.itemStr == k
    requires forall k' | k' in dict :: dict[k'] != item
    ensures DictFits(dict[k := item], items + [k])
  {
  }

  /** What the loop below has built after the first `i` entries. */
  ghost predicate BuiltUpTo(data: seq<MenuEntry>, i: nat, dict: map<string, MenuItem>, items: seq<string>)
    reads dict.Values
    requires EntriesWellFormed(data) && i <= |data|
  {
    && items == Names(data[..i])
    && DictFits(dict, items)
    && ViewOf(dict) == InitialView(data[..i])
  }

  /** One pass of the loop below: adding the next entry's item under its name
      extends what has been built by that entry. */
  lemma BuildStep(data: seq<MenuEntry>, i: nat, dict: map<string, MenuItem>, items: seq<string>, item: MenuItem)
    requires EntriesWellFormed(data) && i < |data|
    requires BuiltUpTo(data, i, dict, items)
    requires item.Valid() && item.itemStr == data[i].name && item.optionsList == data[i].options
    requires item.selectedOption == PyIndex(data[i].options, data[i].defaultIndex)
    requires forall k | k in dict :: dict[k] != item
    ensures BuiltUpTo(data, i + 1, dict[data[i].name := item], items + [data[i].name])
  {
    assert data[..i + 1][..i] == data[..i];
    ViewOfUpdate(dict, data[i].name, item);
    DictFitsAdd(dict, items, data[i].name, item);
  }

  /** The loop of MenuHandler's constructor: one fresh MenuItem per entry,
      the names appended in order, the first name selected. */
  method BuildMenu(menuListData: seq<MenuEntry>)
    returns (dict: map<string, MenuItem>, items: seq<string>, selected: Option<string>)
    requires EntriesWellFormed(menuListData)
    ensures DictFits(dict, items)
    ensures items == Names(menuListData)
    ensures selected == if menuListData == [] then None else Some(menuListData[0].name)
    ensures ViewOf(dict) == InitialView(menuListData)
    ensures forall k | k in dict :: fresh(dict[k])
  {
    dict, items, selected := map[], [], None;
    for i := 0 to |menuListData|
      invariant BuiltUpTo(menuListData, i, dict, items)
      invariant selected == if i == 0 then None else Some(menuListData[0].name)
      invariant forall k | k in dict :: fresh(dict[k])
    {
      var entry := menuListData[i];
      var item := new MenuItem(entry.name, entry.options, entry.defaultIndex);
      BuildStep(menuListData, i, dict, items, item);
      dict := dict[entry.name := item];
      items := items + [entry.name];
      if selected.None? {
        selected := Some(entry.name);
      }
    }
    assert menuListData[..|menuListData|] == menuListData;
  }

  /** The state behind the menu (class MenuHandler). */
  class MenuHandler {
    var stateDict: map<string, MenuItem>
    var itemList: seq<string>
    var selectedItemKey: Option<string>
    var optionChanged: bool

    ghost predicate Valid()
      reads this, stateDict.Values
    {
      && DictFits(stateDict, itemList)
      && (selectedItemKey.None? <==> itemList == [])
      && (selectedItemKey.Some? ==> selectedItemKey.value in itemList)
    }

    /** Each item's options and selected option, by name. */
    ghost function View(): map<string, ItemView>
      reads this, stateDict.Values
    {
      ViewOf(stateDict)
    }

    /** The selected key, the option-changed flag and the item views. */
    ghost function State(): (r: MenuState)
      reads this, stateDict.Values
      requires selectedItemKey.Some?
      ensures Valid() ==> StateFits(r, itemList)
    {
      MenuState(selectedItemKey.value, optionChanged, View())
    }

    constructor (menuListData: seq<MenuEntry>)
      requires EntriesWellFormed(menuListData)
      ensures Valid()
      ensures itemList == Names(menuListData)
      ensures selectedItemKey == if menuListData == [] then None else Some(menuListData[0].name)
      ensures !optionChanged
      ensures View() == InitialView(menuListData)
      ensures forall k | k in stateDict :: fresh(stateDict[k])
    {
      var dict, items, selected := BuildMenu(menuListData);
      stateDict := dict;
      itemList := items;
      selectedItemKey := selected;
      optionChanged := false;
    }

    /** All item keys, in the order they were defined. */
    function GetItems(): (r: seq<string>)
      reads this, stateDict.Values
      ensures Valid() ==> forall k :: k in r <==> k in View()
      ensures r == itemList
    {
      itemList
    }

    /** The selected item's key; None only for an empty menu. */
    function GetSelectedItem(): (r: Option<string>)
      reads this, stateDict.Values
      ensures Valid() ==> (r.None? <==> itemList == [])
      ensures Valid() && r.Some? ==> r.value in View()
      ensures r == selectedItemKey
    {
      selectedItemKey
    }

    /** The current option of the given item, or "?" for None. */
    function GetItemOption(keyStr: Option<string>): (r: string)
      reads this, stateDict.Values
      requires keyStr.Some? ==> keyStr.value in stateDict
      ensures keyStr.None? ==> r == "?"
      ensures keyStr.Some? ==> r == View()[keyStr.value].selected
      ensures Valid() && keyStr.Some? ==> r in View()[keyStr.value].options
    {
      match keyStr
      case None => "?"
      case Some(k) => stateDict[k].selectedOption
    }

    /** The options list of the given item. */
    function GetOptionsForItem(keyStr: string): (r: seq<string>)
      reads this, stateDict.Values
      requires keyStr in stateDict
      ensures r == View()[keyStr].options
      ensures Valid() ==> r != []
    {
      stateDict[keyStr].optionsList
    }

    /** Select the next item, wrapping; an item move reports no option change. */
    method SelectNextItem()
      requires Valid() && itemList != []
      modifies this`selectedItemKey, this`optionChanged
      ensures Valid()
      ensures selectedItemKey == Some(Neighbour(itemList, old(selectedItemKey).value, 1))
      ensures !optionChanged
      ensures View() == old(View())
    {
      var i := (IndexFrom(itemList, selectedItemKey.value, 0).value + 1) % |itemList|;
      selectedItemKey := Some(itemList[i]);
      optionChanged := false;
    }

    /** Select the previous item, wrapping; an item move reports no option change. */
    method SelectPrevItem()
      requires Valid() && itemList != []
      modifies this`selectedItemKey, this`optionChanged
      ensures Valid()
      ensures selectedItemKey == Some(Neighbour(itemList, old(selectedItemKey).value, -1))
      ensures !optionChanged
      ensures View() == old(View())
    {
      var i := (IndexFrom(itemList, selectedItemKey.value, 0).value - 1) % |itemList|;
      selectedItemKey := Some(itemList[i]);
      optionChanged := false;
    }

    /** Move the selected item to its next option and report an option change. */
    method SetNextOption()
      requires Valid() && selectedItemKey.Some?
      modifies this`optionChanged, (stateDict[selectedItemKey.value] as MenuItem)`selectedOption
      ensures Valid()
      ensures selectedItemKey == old(selectedItemKey) && optionChanged
      ensures View() == WithOption(old(View()), selectedItemKey.value, 1)
    {
      var mi := stateDict[selectedItemKey.value];
      mi.SelectNextOption();
      optionChanged := true;
      assert View() == WithOption(old(View()), selectedItemKey.value, 1);
    }

    /** Move the selected item to its previous option and report an option change. */
    method SetPrevOption()
      requires Valid() && selectedItemKey.Some?
      modifies this`optionChanged, (stateDict[selectedItemKey.value] as MenuItem)`selectedOption
      ensures Valid()
      ensures selectedItemKey == old(selectedItemKey) && optionChanged
      ensures View() == WithOption(old(View()), selectedItemKey.value, -1)
    {
      var mi := stateDict[selectedItemKey.value];
      mi.SelectPrevOption();
      optionChanged := true;
      assert View() == WithOption(old(View()), selectedItemKey.value, -1);
    }
  }

  /** Looking a key up from position 1 of the doubled list finds it exactly
      when it is listed, and then within the first copy or at the start of
      the second. */
  lemma {:induction false} FoundInDoubled(allKeys: seq<string>, key: string)
    ensures IndexFrom(allKeys + allKeys, key, 1).None? <==> key !in allKeys
    ensures IndexFrom(allKeys + allKeys, key, 1).Some? ==>
      1 <= IndexFrom(allKeys + allKeys, key, 1).value <= |allKeys|
  {
    var n := |allKeys|;
    var keyList := allKeys + allKeys;
    var found := IndexFrom(keyList, key, 1);
    if key in allKeys {
      var p := IndexFrom(allKeys, key, 0).value;
      var q := if p >= 1 then p else n;
      assert keyList[q] == key;
      assert found.Some? && found.value <= q;
    } else {
      forall j | 1 <= j < 2 * n ensures keyList[j] != key {
        assert keyList[j] == allKeys[if j < n then j else j - n];
      }
    }
  }

  /** With no repeats and two or more keys, the lookup lands on the key's own
      position (or, for the first key, on its copy), and the three entries
      around it are the previous, selected and next keys in cyclic order. */
  lemma {:induction false} DoubledWindow(allKeys: seq<string>, p: nat)
    requires Distinct(allKeys) && |allKeys| >= 2 && p < |allKeys|
    ensures IndexFrom(allKeys + allKeys, allKeys[p], 1) == Some(if p >= 1 then p else |allKeys|)
    ensures var kLoc := if p >= 1 then p else |allKeys|;
      (allKeys + allKeys)[kLoc - 1 .. kLoc + 2]
      == [Neighbour(allKeys, allKeys[p], -1), allKeys[p], Neighbour(allKeys, allKeys[p], 1)]
  {
    var n := |allKeys|;
    var keyList := allKeys + allKeys;
    var key := allKeys[p];
    var kLoc := if p >= 1 then p else n;
    forall j | 1 <= j < kLoc ensures keyList[j] != key {
      assert allKeys[j] != allKeys[p];
    }
    assert keyList[kLoc] == key;
    PrevAt(allKeys, p);
    NextAt(allKeys, p);
    var prev := if p > 0 then allKeys[p - 1] else allKeys[n - 1];
    var next := if p + 1 < n then allKeys[p + 1] else allKeys[0];
    assert keyList[kLoc - 1] == prev;
    assert keyList[kLoc + 1] == next;
  }

  /** The keys updateDisplay shows: the item list written out twice, the
      selected key looked up from position 1 on, and the slice from the entry
      before it to the entry after it. With two or more items this is the
      previous, selected and next key in cyclic order; with one item the
      slice holds two keys and reading the third raises IndexError; a key
      that is not listed (None for an empty menu) raises ValueError. */
  method DisplayWindow(allKeys: seq<string>, selected: Option<string>)
    returns (r: Result<seq<string>, MenuError>)
    ensures selected.None? || selected.value !in allKeys ==> r == Err(ValueError)
    ensures selected.Some? && selected.value in allKeys && |allKeys| == 1 ==> r == Err(IndexError)
    ensures selected.Some? && selected.value in allKeys && |allKeys| >= 2 ==>
      && r.Ok? && |r.value| == 3 && r.value[1] == selected.value
      && (forall i | 0 <= i < 3 :: r.value[i] in allKeys)
    ensures selected.Some? && selected.value in allKeys && |allKeys| >= 2 && Distinct(allKeys) ==>
      r == Ok([Neighbour(allKeys, selected.value, -1), selected.value, Neighbour(allKeys, selected.value, 1)])
  {
    var n := |allKeys|;
    var keyList: seq<string> := [];
    for i := 0 to n
      invariant keyList == allKeys[..i]
    {
      keyList := keyList + [allKeys[i]];
    }
    for i := 0 to n
      invariant keyList == allKeys + allKeys[..i]
    {
      keyList := keyList + [allKeys[i]];
    }
    assert keyList == allKeys + allKeys;
    if selected.None? {
      return Err(ValueError);
    }
    var key := selected.value;
    FoundInDoubled(allKeys, key);
    var found := IndexFrom(keyList, key, 1);
    if found.None? {
      return Err(ValueError);
    }
    var kLoc := found.value;
    var displayKeys := keyList[kLoc - 1 .. if kLoc + 2 <= |keyList| then kLoc + 2 else |keyList|];
    if |displayKeys| < 3 {
      return Err(IndexError);
    }
    WindowOfDoubled(allKeys, key);
    r := Ok(displayKeys);
  }

  /** What the slice around the looked-up key holds, when the key is listed:
      nothing past the end with one key, three listed keys centred on the
      selected one with two or more, and the cyclic neighbours when the keys
      are distinct. */
  lemma WindowOfDoubled(allKeys: seq<string>, key: string)
    requires key in allKeys
    ensures var found := IndexFrom(allKeys + allKeys, key, 1);
      found.Some? && 1 <= found.value <= |allKeys|
    ensures var kLoc := IndexFrom(allKeys + allKeys, key, 1).value;
      |allKeys| == 1 ==> kLoc + 2 > 2 * |allKeys|
    ensures var kLoc := IndexFrom(allKeys + allKeys, key, 1).value;
      var window := (allKeys + allKeys)[kLoc - 1 .. if kLoc + 2 <= 2 * |allKeys| then kLoc + 2 else 2 * |allKeys|];
      |allKeys| >= 2 ==>
        && |window| == 3 && window[1] == key
        && (forall i | 0 <= i < 3 :: window[i] in allKeys)
        && (Distinct(allKeys) ==> window == [Neighbour(allKeys, key, -1), key, Neighbour(allKeys, key, 1)])
  {
    FoundInDoubled(allKeys, key);
    if |allKeys| >= 2 {
      WindowInKeys(allKeys, IndexFrom(allKeys + allKeys, key, 1).value);
      if Distinct(allKeys) {
        DoubledWindow(allKeys, IndexFrom(allKeys, key, 0).value);
      }
    }
  }

  /** Every entry of a three-entry slice of the doubled list is a listed key. */
  lemma WindowInKeys(allKeys: seq<string>, kLoc: nat)
    requires 1 <= kLoc <= |allKeys| && |allKeys| >= 2
    ensures var window := (allKeys + allKeys)[kLoc - 1 .. kLoc + 2];
      forall i | 0 <= i < 3 :: window[i] in allKeys
  {
    var window := (allKeys + allKeys)[kLoc - 1 .. kLoc + 2];
    forall i | 0 <= i < 3 ensures window[i] in allKeys {
      var j := kLoc - 1 + i;
      assert window[i] == allKeys[if j < |allKeys| then j else j - |allKeys|];
    }
  }

  /** The gesture menu (class GestureMenu): a MenuHandler plus the keys the
      display's three text areas currently show. */
  class GestureMenu {
    var menuHandler: MenuHandler
    const windowSize: int
    var shownKeys: seq<string>

    ghost predicate Valid()
      reads this, menuHandler, menuHandler.stateDict.Values
    {
      && menuHandler.Valid()
      && |menuHandler.itemList| >= 2
      && |shownKeys| == 3
      && menuHandler.selectedItemKey.Some?
      && shownKeys[1] == menuHandler.selectedItemKey.value
      && (forall i | 0 <= i < 3 :: shownKeys[i] in menuHandler.itemList)
    }

    /** The keys shown around the selected one, when the items hold no repeats. */
    ghost predicate ShowsWindow()
      reads this, menuHandler, menuHandler.stateDict.Values
      requires Valid()
    {
      var items, sel := menuHandler.itemList, menuHandler.selectedItemKey.value;
      Distinct(items) ==> shownKeys == [Neighbour(items, sel, -1), sel, Neighbour(items, sel, 1)]
    }

    /** Build the handler and draw the first window. The sensor set-up is not
        modelled; a menu of fewer than two entries makes updateDisplay raise
        IndexError or ValueError, so the constructor needs two. */
    constructor (menuData: seq<MenuEntry>, windowSize: int)
      requires EntriesWellFormed(menuData) && |menuData| >= 2
      ensures Valid() && ShowsWindow() && fresh(menuHandler)
      ensures menuHandler.itemList == Names(menuData)
      ensures menuHandler.selectedItemKey == Some(menuData[0].name)
      ensures !menuHandler.optionChanged
      ensures menuHandler.View() == InitialView(menuData)
      ensures this.windowSize == windowSize
    {
      this.windowSize := windowSize;
      menuHandler := new MenuHandler(menuData);
      new;
      UpdateDisplay();
    }

    /** Redraw the three text areas around the selected item. */
    method UpdateDisplay()
      requires menuHandler.Valid() && |menuHandler.itemList| >= 2
      modifies this`shownKeys
      ensures Valid() && ShowsWindow()
      ensures menuHandler.View() == old(menuHandler.View())
    {
      var r := DisplayWindow(menuHandler.GetItems(), menuHandler.GetSelectedItem());
      shownKeys := r.value;
    }

    /** Apply gesture `g` (0 = none, 1 down, 2 up, 3 left, 4 right) and
        redraw; returns None for no gesture and the code otherwise. */
    method GetGesture(g: int) returns (r: Option<int>)
      requires Valid()
      modifies this`shownKeys, menuHandler`selectedItemKey, menuHandler`optionChanged,
        menuHandler.stateDict.Values
      ensures Valid() && (g != 0 ==> ShowsWindow())
      ensures r == if g == 0 then None else Some(g)
      ensures menuHandler.State() == AfterGesture(old(menuHandler.State()), menuHandler.itemList, g)
      ensures g == 0 ==> shownKeys == old(shownKeys)
    {
      if g == 0 {
        return None;
      }
      ghost var before := menuHandler.State();
      ghost var items := menuHandler.itemList;
      if g == 1 {
        menuHandler.SelectNextItem();
      } else if g == 2 {
        menuHandler.SelectPrevItem();
      } else if g == 3 {
        menuHandler.SetPrevOption();
      } else if g == 4 {
        menuHandler.SetNextOption();
      }
      ghost var after := menuHandler.State();
      assert after == AfterGesture(before, items, g);
      UpdateDisplay();
      assert menuHandler.State() == after;
      return Some(g);
    }

    /** Look for a gesture: (None, None) for gesture 0 or when the
        option-changed flag is clear after the gesture; otherwise the
        selected item and its option. */
    method GetItemAndOption(g: int) returns (item: Option<string>, option: Option<string>)
      requires Valid()
      modifies this`shownKeys, menuHandler`selectedItemKey, menuHandler`optionChanged,
        menuHandler.stateDict.Values
      ensures Valid() && (g != 0 ==> ShowsWindow())
      ensures g == 0 ==> shownKeys == old(shownKeys)
      ensures menuHandler.State() == AfterGesture(old(menuHandler.State()), menuHandler.itemList, g)
      ensures g == 0 || !menuHandler.optionChanged ==> item.None? && option.None?
      ensures g != 0 && menuHandler.optionChanged ==>
        && item == menuHandler.selectedItemKey
        && option == Some(menuHandler.View()[item.value].selected)
    {
      var gesture := GetGesture(g);
      if gesture.None? {
        return None, None;
      }
      if !menuHandler.optionChanged {
        return None, None;
      }
      var si := menuHandler.GetSelectedItem();
      return si, Some(menuHandler.GetItemOption(si));
    }

    /** The selected item's key. */
    function GetSelectedItem(): (r: string)
      reads this, menuHandler, menuHandler.stateDict.Values
      requires Valid()
      ensures r in menuHandler.itemList && r == shownKeys[1]
    {
      menuHandler.GetSelectedItem().value
    }

    /** The selected item's current option. */
    function GetSelectedOption(): (r: string)
      reads this, menuHandler, menuHandler.stateDict.Values
      requires Valid()
      ensures r == menuHandler.View()[GetSelectedItem()].selected
      ensures r in menuHandler.View()[GetSelectedItem()].options
    {
      menuHandler.GetItemOption(Some(GetSelectedItem()))
    }

    /** The given item's current option, or "?" for None. */
    function GetItemOption(itemStr: Option<string>): (r: string)
      reads this, menuHandler, menuHandler.stateDict.Values
      requires Valid() && (itemStr.Some? ==> itemStr.value in menuHandler.itemList)
      ensures itemStr.None? ==> r == "?"
      ensures itemStr.Some? ==> r == menuHandler.View()[itemStr.value].selected
    {
      menuHandler.GetItemOption(itemStr)
    }
  }
}
