/**
 * The client's application store (src/store/index.ts): theme, favourite cities, the selected
 * city and the compare list, with each action as a pure transition of the state record.
 */
module Store {
  import opened Wrappers

  datatype Theme = Dark | Light

  datatype FavoriteCity = FavoriteCity(uid: int, name: string, country: Option<string>, lat: real, lon: real)

  datatype AppState = AppState(
    theme: Theme,
    favorites: seq<FavoriteCity>,
    selectedCity: Option<int>,
    compareList: seq<int>)

  /** The part of the state written to local storage. */
  datatype Persisted = Persisted(theme: Theme, favorites: seq<FavoriteCity>)

  /** The compare list accepts at most this many cities. */
  const MAX_COMPARE: nat := 3

  /** No two favourites share a uid. */
  predicate UniqueUids(favorites: seq<FavoriteCity>) {
    forall i, j :: 0 <= i < j < |favorites| ==> favorites[i].uid != favorites[j].uid
  }

  predicate NoDuplicates(xs: seq<int>) {
    forall i, j :: 0 <= i < j < |xs| ==> xs[i] != xs[j]
  }

  /** The invariant every action keeps. */
  predicate Valid(s: AppState) {
    && UniqueUids(s.favorites)
    && |s.compareList| <= MAX_COMPARE
    && NoDuplicates(s.compareList)
  }

  /** Some favourite has this uid (`favorites.some(f => f.uid === uid)`). */
  predicate HasFavorite(favorites: seq<FavoriteCity>, uid: int) {
    exists i :: 0 <= i < |favorites| && favorites[i].uid == uid
  }

  /** The state a fresh store starts with. */
  function Initial(): (s: AppState)
    ensures s.theme == Dark && s.favorites == [] && s.selectedCity == None && s.compareList == []
    ensures Valid(s)
  {
    AppState(Dark, [], None, [])
  }

  /** `toggleTheme`: dark becomes light and light becomes dark. */
  function ToggleTheme(s: AppState): (r: AppState)
    ensures r.theme != s.theme
    ensures r.favorites == s.favorites && r.selectedCity == s.selectedCity && r.compareList == s.compareList
  {
    s.(theme := if s.theme == Dark then Light else Dark)
  }

  lemma ToggleThemeTwice(s: AppState)
    ensures ToggleTheme(ToggleTheme(s)) == s
  {
  }

  /** `addFavorite`: appends the city unless a favourite with its uid is already there. */
  function AddFavorite(s: AppState, city: FavoriteCity): (r: AppState)
    ensures HasFavorite(s.favorites, city.uid) ==> r == s
    ensures !HasFavorite(s.favorites, city.uid) ==> r.favorites == s.favorites + [city]
    ensures HasFavorite(r.favorites, city.uid)
    ensures UniqueUids(s.favorites) ==> UniqueUids(r.favorites)
    ensures r.theme == s.theme && r.selectedCity == s.selectedCity && r.compareList == s.compareList
  {
    if HasFavorite(s.favorites, city.uid) then s
    else
      var r := s.(favorites := s.favorites + [city]);
      assert r.favorites[|s.favorites|].uid == city.uid;
      r
  }

  /** The favourites whose uid differs from `uid`, in their original order. */
  function DropUid(favorites: seq<FavoriteCity>, uid: int): (r: seq<FavoriteCity>)
    ensures forall f :: f in r <==> f in favorites && f.uid != uid
    ensures |r| <= |favorites|
  {
    if |favorites| == 0 then []
    else
      var rest := DropUid(favorites[1..], uid);
      assert forall f :: f in favorites <==> f == favorites[0] || f in favorites[1..];
      if favorites[0].uid == uid then rest else [favorites[0]] + rest
  }

  /** Dropping a uid from a list with unique uids keeps them unique. */
  lemma {:induction false} DropUidKeepsUnique(favorites: seq<FavoriteCity>, uid: int)
    requires UniqueUids(favorites)
    ensures UniqueUids(DropUid(favorites, uid))
  {
    if |favorites| > 0 {
      var rest := DropUid(favorites[1..], uid);
      DropUidKeepsUnique(favorites[1..], uid);
      if favorites[0].uid != uid {
        var r := [favorites[0]] + rest;
        forall j | 1 <= j < |r| ensures r[0].uid != r[j].uid {
          assert r[j] in favorites[1..];
          var k :| 0 <= k < |favorites[1..]| && favorites[1..][k] == r[j];
          assert favorites[k + 1] == r[j];
        }
      }
    }
  }

  /** Dropping a uid no favourite has changes nothing. */
  lemma {:induction false} DropAbsentUid(favorites: seq<FavoriteCity>, uid: int)
    requires !HasFavorite(favorites, uid)
    ensures DropUid(favorites, uid) == favorites
  {
    if |favorites| > 0 {
      assert favorites[0].uid != uid;
      DropAbsentUid(favorites[1..], uid);
    }
  }

  /** Filtering distributes over concatenation: the relative order of kept favourites is unchanged. */
  lemma {:induction false} DropUidAppend(a: seq<FavoriteCity>, b: seq<FavoriteCity>, uid: int)
    ensures DropUid(a + b, uid) == DropUid(a, uid) + DropUid(b, uid)
  {
    if |a| == 0 {
      assert a + b == b;
    } else {
      assert (a + b)[1..] == a[1..] + b;
      DropUidAppend(a[1..], b, uid);
    }
  }

  /** `removeFavorite`: drops exactly the favourites with this uid. */
  function RemoveFavorite(s: AppState, uid: int): (r: AppState)
    ensures forall f :: f in r.favorites <==> f in s.favorites && f.uid != uid
    ensures !HasFavorite(r.favorites, uid)
    ensures UniqueUids(s.favorites) ==> UniqueUids(r.favorites)
    ensures r.theme == s.theme && r.selectedCity == s.selectedCity && r.compareList == s.compareList
  {
    assert UniqueUids(s.favorites) ==> UniqueUids(DropUid(s.favorites, uid)) by {
      if UniqueUids(s.favorites) {
        DropUidKeepsUnique(s.favorites, uid);
      }
    }
    s.(favorites := DropUid(s.favorites, uid))
  }

  /** Adding a city with a new uid and then removing that uid restores the favourites. */
  lemma AddThenRemoveFavorite(s: AppState, city: FavoriteCity)
    requires !HasFavorite(s.favorites, city.uid)
    ensures RemoveFavorite(AddFavorite(s, city), city.uid) == s
  {
    DropUidAppend(s.favorites, [city], city.uid);
    DropAbsentUid(s.favorites, city.uid);
    assert DropUid([city], city.uid) == [];
  }

  /** `setSelectedCity`. */
  function SetSelectedCity(s: AppState, uid: Option<int>): (r: AppState)
    ensures r.selectedCity == uid
    ensures r.theme == s.theme && r.favorites == s.favorites && r.compareList == s.compareList
  {
    s.(selectedCity := uid)
  }

  /** `addToCompare`: appends the uid unless it is already listed or the list is full. */
  function AddToCompare(s: AppState, uid: int): (r: AppState)
    ensures uid in s.compareList || |s.compareList| >= MAX_COMPARE ==> r == s
    ensures uid !in s.compareList && |s.compareList| < MAX_COMPARE ==> r.compareList == s.compareList + [uid]
    ensures |s.compareList| <= MAX_COMPARE ==> |r.compareList| <= MAX_COMPARE
    ensures NoDuplicates(s.compareList) ==> NoDuplicates(r.compareList)
    ensures r.theme == s.theme && r.favorites == s.favorites && r.selectedCity == s.selectedCity
  {
    if uid in s.compareList then s
    else if |s.compareList| < MAX_COMPARE then s.(compareList := s.compareList + [uid])
    else s
  }

  /** The list without any occurrence of `x`, in its original order. */
  function Without(xs: seq<int>, x: int): (r: seq<int>)
    ensures forall y :: y in r <==> y in xs && y != x
    ensures |r| <= |xs|
    ensures NoDuplicates(xs) ==> NoDuplicates(r)
    ensures x !in xs ==> r == xs
  {
    if |xs| == 0 then []
    else
      var rest := Without(xs[1..], x);
      assert forall y :: y in xs <==> y == xs[0] || y in xs[1..];
      if xs[0] == x then rest
      else
        var r := [xs[0]] + rest;
        assert NoDuplicates(xs) ==> NoDuplicates(r) by {
          if NoDuplicates(xs) {
            assert xs[0] !in xs[1..];
          }
        }
        r
  }

  /** `removeFromCompare`. */
  function RemoveFromCompare(s: AppState, uid: int): (r: AppState)
    ensures forall u :: u in r.compareList <==> u in s.compareList && u != uid
    ensures |r.compareList| <= |s.compareList|
    ensures NoDuplicates(s.compareList) ==> NoDuplicates(r.compareList)
    ensures r.theme == s.theme && r.favorites == s.favorites && r.selectedCity == s.selectedCity
  {
    s.(compareList := Without(s.compareList, uid))
  }

  lemma {:induction false} WithoutAppend(a: seq<int>, b: seq<int>, x: int)
    ensures Without(a + b, x) == Without(a, x) + Without(b, x)
  {
    if |a| == 0 {
      assert a + b == b;
    } else {
      assert (a + b)[1..] == a[1..] + b;
      WithoutAppend(a[1..], b, x);
    }
  }

  /** Adding a uid the compare list accepts and then removing it restores the list. */
  lemma AddThenRemoveCompare(s: AppState, uid: int)
    requires uid !in s.compareList && |s.compareList| < MAX_COMPARE
    ensures RemoveFromCompare(AddToCompare(s, uid), uid) == s
  {
    WithoutAppend(s.compareList, [uid], uid);
    assert Without([uid], uid) == [];
  }

  /** `clearCompare`. */
  function ClearCompare(s: AppState): (r: AppState)
    ensures |r.compareList| == 0
    ensures r.theme == s.theme && r.favorites == s.favorites && r.selectedCity == s.selectedCity
  {
    s.(compareList := [])
  }

  /** `partialize`: only the theme and the favourites are persisted. */
  function Partialize(s: AppState): (p: Persisted)
    ensures p.theme == s.theme && p.favorites == s.favorites
  {
    Persisted(s.theme, s.favorites)
  }

  /** Every action of the store, as a value. */
  datatype Action =
    | ToggleThemeAction
    | AddFavoriteAction(city: FavoriteCity)
    | RemoveFavoriteAction(uid: int)
    | SetSelectedCityAction(selected: Option<int>)
    | AddToCompareAction(compareUid: int)
    | RemoveFromCompareAction(compareUid: int)
    | ClearCompareAction

  function Apply(s: AppState, a: Action): AppState {
    match a
    case ToggleThemeAction => ToggleTheme(s)
    case AddFavoriteAction(city) => AddFavorite(s, city)
    case RemoveFavoriteAction(uid) => RemoveFavorite(s, uid)
    case SetSelectedCityAction(selected) => SetSelectedCity(s, selected)
    case AddToCompareAction(uid) => AddToCompare(s, uid)
    case RemoveFromCompareAction(uid) => RemoveFromCompare(s, uid)
    case ClearCompareAction => ClearCompare(s)
  }

  /** The state after a run of actions. */
  function Run(s: AppState, actions: seq<Action>): AppState
    decreases |actions|
  {
    if |actions| == 0 then s else Run(Apply(s, actions[0]), actions[1..])
  }

  /** Every reachable state keeps favourite uids unique and the compare list short and duplicate-free. */
  lemma {:induction false} RunKeepsValid(actions: seq<Action>)
    ensures Valid(Run(Initial(), actions))
  {
    RunFromValid(Initial(), actions);
  }

  lemma {:induction false} RunFromValid(s: AppState, actions: seq<Action>)
    requires Valid(s)
    ensures Valid(Run(s, actions))
    decreases |actions|
  {
    if |actions| > 0 {
      RunFromValid(Apply(s, actions[0]), actions[1..]);
    }
  }

  /** Compare-list and selection actions never change what is persisted. */
  lemma SessionActionsNotPersisted(s: AppState, a: Action)
    requires a.SetSelectedCityAction? || a.AddToCompareAction? || a.RemoveFromCompareAction? || a.ClearCompareAction?
    ensures Partialize(Apply(s, a)) == Partialize(s)
  {
  }
}
