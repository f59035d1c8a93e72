/** The Pokémon server's three tools over PokeAPI: `get_pokemon_info`,
    `create_tournament_squad` and `list_popular_pokemon`. The HTTP request is the
    oracle `http`; `str.lower` and `str.capitalize` are the oracles `lower` and
    `capitalize`. */
module Poke {
  import opened Strings
  import opened Exceptions
  import opened Json

  const POKEAPI_BASE := "https://pokeapi.co/api/v2"

  /** What `response.json()` makes of a body: the decoded value, or the message of
      the `JSONDecodeError` it raises, which says where decoding failed. */
  datatype Body = Decoded(json: Json) | NotJson(decodeError: string)

  /** What `client.get(url)` gives: a response with its status and its body, or an
      `httpx.HTTPError`. */
  datatype HttpReply = Response(status: int, body: Body) | HttpError

  type Http = string -> HttpReply

  /** `fetch_pokemon_data(name)`: the decoded body of a 200 reply, `{}` for any other
      status or an HTTP error. A 200 reply that is not JSON raises: the decoding
      error is not an `httpx.HTTPError`. */
  function FetchPokemonData(name: string, http: Http, lower: string -> string): (r: Result<Json>)
    ensures var reply := http(POKEAPI_BASE + "/pokemon/" + lower(name));
      (reply.HttpError? || reply.status != 200) ==> r == Ok(JObject([]))
    ensures var reply := http(POKEAPI_BASE + "/pokemon/" + lower(name));
      reply.Response? && reply.status == 200 ==>
        r == if reply.body.Decoded? then Ok(reply.body.json) else Err(ValueError(reply.body.decodeError))
  {
    match http(POKEAPI_BASE + "/pokemon/" + lower(name))
    case HttpError => Ok(JObject([]))
    case Response(status, body) =>
      if status != 200 then Ok(JObject([]))
      else match body
        case Decoded(json) => Ok(json)
        case NotJson(message) => Err(ValueError(message))
  }

  // ---- stats, keyed by name --------------------------------------------------

  /** A dict kept as its items in insertion order. */
  type Dict = seq<(Json, Json)>

  /** `d[k]`, when present. */
  function Find(d: Dict, k: Json): Option<Json>
  {
    if d == [] then None
    else if d[0].0 == k then Some(d[0].1)
    else Find(d[1..], k)
  }

  /** `list(d)`: the keys in insertion order. */
  function Keys(d: Dict): seq<Json>
  {
    if d == [] then [] else [d[0].0] + Keys(d[1..])
  }

  /** `d[k] = v`: a new key goes last, an existing key keeps its place and takes the
      new value. */
  function Put(d: Dict, k: Json, v: Json): Dict
  {
    if d == [] then [(k, v)]
    else if d[0].0 == k then [(k, v)] + d[1..]
    else [d[0]] + Put(d[1..], k, v)
  }

  /** After `d[k] = v`, `k` holds `v` and every other key what it held before. */
  lemma {:induction false} PutFind(d: Dict, k: Json, v: Json, k': Json)
    ensures Find(Put(d, k, v), k') == if k' == k then Some(v) else Find(d, k')
  {
    if d != [] && d[0].0 != k {
      PutFind(d[1..], k, v, k');
      assert Put(d, k, v)[1..] == Put(d[1..], k, v);
    }
  }

  /** `d[k] = v` adds `k` at the end when it is new and leaves the key order alone
      otherwise. */
  lemma {:induction false} PutKeys(d: Dict, k: Json, v: Json)
    ensures Keys(Put(d, k, v)) == if k in Keys(d) then Keys(d) else Keys(d) + [k]
  {
    if d != [] && d[0].0 != k {
      PutKeys(d[1..], k, v);
      assert Put(d, k, v)[1..] == Put(d[1..], k, v);
    }
  }

  /** `{k: v for (k, v) in pairs}`, the pairs being each stat's name and base_stat. */
  function Collect(pairs: seq<(Json, Json)>): Dict
  {
    if pairs == [] then []
    else
      var last := pairs[|pairs| - 1];
      Put(Collect(pairs[..|pairs| - 1]), last.0, last.1)
  }

  /** The value of the last pair with key `k`. */
  function LastValue(pairs: seq<(Json, Json)>, k: Json): Option<Json>
  {
    if pairs == [] then None
    else if pairs[|pairs| - 1].0 == k then Some(pairs[|pairs| - 1].1)
    else LastValue(pairs[..|pairs| - 1], k)
  }

  /** The keys of `pairs` in the order they first occur, each once. */
  function FirstOccurrences(keys: seq<Json>): seq<Json>
  {
    if keys == [] then []
    else
      var d := FirstOccurrences(keys[..|keys| - 1]);
      if keys[|keys| - 1] in d then d else d + [keys[|keys| - 1]]
  }

  function PairKeys(pairs: seq<(Json, Json)>): seq<Json>
  {
    seq(|pairs|, i requires 0 <= i < |pairs| => pairs[i].0)
  }

  /** The stats dict has each stat name once, in the order of its first occurrence,
      and holds the base_stat of its LAST occurrence. */
  lemma {:induction false} CollectLastWins(pairs: seq<(Json, Json)>)
    ensures Keys(Collect(pairs)) == FirstOccurrences(PairKeys(pairs))
    ensures forall k :: Find(Collect(pairs), k) == LastValue(pairs, k)
  {
    if pairs != [] {
      var init := pairs[..|pairs| - 1];
      var last := pairs[|pairs| - 1];
      CollectLastWins(init);
      PutKeys(Collect(init), last.0, last.1);
      assert PairKeys(pairs)[..|pairs| - 1] == PairKeys(init);
      forall k ensures Find(Collect(pairs), k) == LastValue(pairs, k) {
        PutFind(Collect(init), last.0, last.1, k);
      }
    }
  }

  /** `stat["stat"]["name"]` and `stat["base_stat"]`, in that order; the name must be
      hashable to be a key. */
  function StatPair(stat: Json): (r: Result<(Json, Json)>)
    ensures r.Ok? ==> Subscript(stat, "stat").Ok? && Subscript(Subscript(stat, "stat").value, "name") == Ok(r.value.0)
    ensures r.Ok? ==> Subscript(stat, "base_stat") == Ok(r.value.1)
    ensures r.Ok? <==> Subscript(stat, "stat").Ok? && Subscript(Subscript(stat, "stat").value, "name").Ok? &&
                       Subscript(stat, "base_stat").Ok? &&
                       !(Subscript(Subscript(stat, "stat").value, "name").value.JArray? ||
                         Subscript(Subscript(stat, "stat").value, "name").value.JObject?)
  {
    var inner :- Subscript(stat, "stat");
    var name :- Subscript(inner, "name");
    var base :- Subscript(stat, "base_stat");
    if name.JArray? || name.JObject? then Err(TypeError("unhashable type: " + Quote(TypeName(name))))
    else Ok((name, base))
  }

  /** `t[outer]["name"]`, as the type and ability comprehensions read each entry. */
  function NameOf(outer: string): Json -> Result<Json>
  {
    entry => (var v :- Subscript(entry, outer); Subscript(v, "name"))
  }

  /** `[t[entry]["name"] for t in data[list]]`. */
  function NamesOf(data: Json, list: string, entry: string): (r: Result<seq<Json>>)
    ensures Subscript(data, list).Ok? && Subscript(data, list).value.JArray? ==>
      r == Traverse(NameOf(entry), Subscript(data, list).value.items)
    ensures Subscript(data, list).Err? ==> r == Err(Subscript(data, list).error)
  {
    var l :- Subscript(data, list);
    var items :- Elements(l);
    Traverse(NameOf(entry), items)
  }

  /** The stats pairs of `data["stats"]`, before they are collected into the dict. */
  function StatsOf(data: Json): (r: Result<seq<(Json, Json)>>)
    ensures Subscript(data, "stats").Ok? && Subscript(data, "stats").value.JArray? ==>
      r == Traverse(StatPair, Subscript(data, "stats").value.items)
    ensures Subscript(data, "stats").Err? ==> r == Err(Subscript(data, "stats").error)
  {
    var l :- Subscript(data, "stats");
    var items :- Elements(l);
    Traverse(StatPair, items)
  }

  /** `", ".join(f"{k}: {v}" for k, v in stats.items())`. */
  function StatsLine(stats: Dict): string
  {
    Join(", ", seq(|stats|, i requires 0 <= i < |stats| => PyStr(stats[i].0) + ": " + PyStr(stats[i].1)))
  }

  /** The info text of non-empty data: the three lists are read first, then the
      f-string capitalises the name and joins the types and the abilities. */
  function Describe(data: Json, capitalize: string -> string): Result<string>
  {
    var pairs :- StatsOf(data);
    var types :- NamesOf(data, "types", "type");
    var abilities :- NamesOf(data, "abilities", "ability");
    var pokemonName :- Subscript(data, "name");
    if !pokemonName.JString? then Err(AttributeError(Quote(TypeName(pokemonName)) + " object has no attribute 'capitalize'"))
    else
      var typesLine :- JoinStrings(", ", types);
      var abilitiesLine :- JoinStrings(", ", abilities);
      Ok("\nName: " + capitalize(pokemonName.s) + "\nTypes: " + typesLine + "\nAbilities: " + abilitiesLine +
         "\nStats: " + StatsLine(Collect(pairs)) + "\n")
  }

  /** `get_pokemon_info(name)`: an empty fetch (a failed request or a non-200
      status) gives the no-data message, a 200 reply that is not JSON raises its
      decoding error, and a 200 reply with non-empty JSON is described. */
  function GetPokemonInfo(name: string, http: Http, lower: string -> string, capitalize: string -> string): (r: Result<string>)
    ensures var reply := http(POKEAPI_BASE + "/pokemon/" + lower(name));
      (reply.HttpError? || reply.status != 200) ==> r == Ok("No data found for Pokémon: " + name)
    ensures var reply := http(POKEAPI_BASE + "/pokemon/" + lower(name));
      reply.Response? && reply.status == 200 && reply.body.NotJson? ==> r == Err(ValueError(reply.body.decodeError))
    ensures var reply := http(POKEAPI_BASE + "/pokemon/" + lower(name));
      reply.Response? && reply.status == 200 && reply.body.Decoded? ==>
        r == if Truthy(reply.body.json) then Describe(reply.body.json, capitalize) else Ok("No data found for Pokémon: " + name)
  {
    var data :- FetchPokemonData(name, http, lower);
    if !Truthy(data) then Ok("No data found for Pokémon: " + name)
    else Describe(data, capitalize)
  }

  /** Strings joined by `sep.join` as JSON strings are joined as text. */
  lemma JoinJsonStrings(sep: string, xs: seq<string>)
    ensures JoinStrings(sep, seq(|xs|, i requires 0 <= i < |xs| => JString(xs[i]))) == Ok(Join(sep, xs))
  {
    var js := seq(|xs|, i requires 0 <= i < |xs| => JString(xs[i]));
    assert seq(|js|, i requires 0 <= i < |js| => js[i].s) == xs;
  }

  /** The info text of well-formed data: the capitalised name, the types and the
      abilities in reply order joined by ", ", and the stats dict's items. */
  lemma DescribeText(data: Json, capitalize: string -> string, pairs: seq<(Json, Json)>,
                     types: seq<string>, abilities: seq<string>, pokemon: string)
    requires StatsOf(data) == Ok(pairs)
    requires NamesOf(data, "types", "type") == Ok(seq(|types|, i requires 0 <= i < |types| => JString(types[i])))
    requires NamesOf(data, "abilities", "ability") == Ok(seq(|abilities|, i requires 0 <= i < |abilities| => JString(abilities[i])))
    requires Subscript(data, "name") == Ok(JString(pokemon))
    ensures Describe(data, capitalize) ==
      Ok("\nName: " + capitalize(pokemon) + "\nTypes: " + Join(", ", types) + "\nAbilities: " +
         Join(", ", abilities) + "\nStats: " + StatsLine(Collect(pairs)) + "\n")
  {
    JoinJsonStrings(", ", types);
    JoinJsonStrings(", ", abilities);
  }

  /** A name that is not a string cannot be capitalised: AttributeError, once the
      three lists have been read. */
  lemma DescribeNameNotString(data: Json, capitalize: string -> string)
    requires StatsOf(data).Ok? && NamesOf(data, "types", "type").Ok? && NamesOf(data, "abilities", "ability").Ok?
    requires Subscript(data, "name").Ok? && !Subscript(data, "name").value.JString?
    ensures Describe(data, capitalize).Err? && Describe(data, capitalize).error.AttributeError?
  {
  }

  // ---- the squad ----------------------------------------------------------------

  const TopPokemon := ["charizard", "garchomp", "lucario", "dragonite", "metagross", "gardevoir"]

  /** One candidate of the squad: its capitalised name when its fetch is non-empty,
      nothing when it is empty. */
  function Member(http: Http, lower: string -> string, capitalize: string -> string): string -> Result<Option<string>>
  {
    name => (
      var data :- FetchPokemonData(name, http, lower);
      if !Truthy(data) then Ok(None)
      else
        var n :- Subscript(data, "name");
        if n.JString? then Ok(Some(capitalize(n.s)))
        else Err(AttributeError(Quote(TypeName(n)) + " object has no attribute 'capitalize'")))
  }

  /** The names present, in order. */
  function Present(members: seq<Option<string>>): seq<string>
  {
    if members == [] then []
    else Present(members[..|members| - 1]) + (if members[|members| - 1].Some? then [members[|members| - 1].value] else [])
  }

  /** The squad text: the header, then the members found, one per line. The first
      candidate whose fetch or name fails makes the whole tool fail. */
  function Squad(http: Http, lower: string -> string, capitalize: string -> string): (r: Result<string>)
    ensures r.Ok? <==> forall i :: 0 <= i < |TopPokemon| ==> Member(http, lower, capitalize)(TopPokemon[i]).Ok?
    ensures r.Ok? ==> StartsWith(r.value, "Tournament Squad:\n")
  {
    var members :- Traverse(Member(http, lower, capitalize), TopPokemon);
    Ok("Tournament Squad:\n" + Join("\n", Present(members)))
  }

  /** The names present are those of the present entries: none when every entry is
      missing, all of them when every entry is present. */
  lemma {:induction false} PresentNames(members: seq<Option<string>>)
    ensures |Present(members)| <= |members|
    ensures forall x :: x in Present(members) <==> Some(x) in members
    ensures (forall i :: 0 <= i < |members| ==> members[i].None?) ==> Present(members) == []
    ensures (forall i :: 0 <= i < |members| ==> members[i].Some?) ==>
      Present(members) == seq(|members|, i requires 0 <= i < |members| => members[i].value)
  {
    if members != [] {
      var init := members[..|members| - 1];
      PresentNames(init);
      assert forall i :: 0 <= i < |init| ==> init[i] == members[i];
    }
  }

  /** The names present keep the entries' order: those of a front part come before
      those of the rest. */
  lemma {:induction false} PresentAppend(a: seq<Option<string>>, b: seq<Option<string>>)
    ensures Present(a + b) == Present(a) + Present(b)
    decreases |b|
  {
    if b != [] {
      var b0 := b[..|b| - 1];
      PresentAppend(a, b0);
      assert (a + b)[..|a + b| - 1] == a + b0;
    } else {
      assert a + b == a;
    }
  }

  /** A Pokémon with an empty fetch is left out: when every fetch is empty, the squad
      is the header alone. */
  lemma SquadAllMissing(http: Http, lower: string -> string, capitalize: string -> string)
    requires forall i :: 0 <= i < |TopPokemon| ==> Member(http, lower, capitalize)(TopPokemon[i]) == Ok(None)
    ensures Squad(http, lower, capitalize) == Ok("Tournament Squad:\n")
  {
    var t := Traverse(Member(http, lower, capitalize), TopPokemon);
    PresentNames(t.value);
    assert t.Ok?;
    assert Squad(http, lower, capitalize) == Ok("Tournament Squad:\n" + Join("\n", Present(t.value)));
    assert Present(t.value) == [];
    assert Join("\n", []) == "";
    assert "Tournament Squad:\n" + "" == "Tournament Squad:\n";
  }

  /** When every fetch has a string name, the squad lists all six candidates,
      capitalised, in the list's order. */
  lemma SquadAllFound(http: Http, lower: string -> string, capitalize: string -> string)
    requires forall i :: 0 <= i < |TopPokemon| ==> Member(http, lower, capitalize)(TopPokemon[i]).Ok? &&
                                                   Member(http, lower, capitalize)(TopPokemon[i]).value.Some?
    ensures Squad(http, lower, capitalize) ==
      Ok("Tournament Squad:\n" + Join("\n", seq(|TopPokemon|, i requires 0 <= i < |TopPokemon| =>
                                                  Member(http, lower, capitalize)(TopPokemon[i]).value.value)))
  {
    var t := Traverse(Member(http, lower, capitalize), TopPokemon);
    PresentNames(t.value);
    assert t.Ok?;
    assert Present(t.value) == seq(|TopPokemon|, i requires 0 <= i < |TopPokemon| =>
                                     Member(http, lower, capitalize)(TopPokemon[i]).value.value);
  }

  /** `create_tournament_squad`: fetch each candidate in order, appending the
      capitalised name of each one found. */
  method CreateTournamentSquad(http: Http, lower: string -> string, capitalize: string -> string) returns (r: Result<string>)
    ensures r == Squad(http, lower, capitalize)
  {
    var member := Member(http, lower, capitalize);
    var squad: seq<string> := [];
    ghost var members: seq<Option<string>> := [];
    var i := 0;
    assert TopPokemon[..0] == [];
    while i < |TopPokemon|
      invariant i <= |TopPokemon|
      invariant Traverse(member, TopPokemon[..i]) == Ok(members)
      invariant squad == Present(members)
    {
      TraverseStep(member, TopPokemon, i);
      var m := member(TopPokemon[i]);
      if m.Err? {
        TraverseFailsEarly(member, TopPokemon, i + 1);
        return Err(m.error);
      }
      assert Present(members + [m.value]) == Present(members) + (if m.value.Some? then [m.value.value] else []) by {
        assert (members + [m.value])[..|members|] == members;
      }
      if m.value.Some? {
        squad := squad + [m.value.value];
      }
      members := members + [m.value];
      i := i + 1;
    }
    assert TopPokemon[..i] == TopPokemon;
    r := Ok("Tournament Squad:\n" + Join("\n", squad));
  }

  // ---- the popular list ---------------------------------------------------------

  const PopularPokemon := ["Charizard", "Garchomp", "Lucario", "Dragonite", "Metagross", "Gardevoir"]

  /** `list_popular_pokemon`: the squad's six candidates, capitalised, one per line. */
  function ListPopularPokemon(): (r: string)
    ensures r == Join("\n", seq(|TopPokemon|, i requires 0 <= i < |TopPokemon| => AsciiCapitalize(TopPokemon[i])))
  {
    PopularAreTheCandidates();
    assert PopularPokemon == seq(|TopPokemon|, i requires 0 <= i < |TopPokemon| => AsciiCapitalize(TopPokemon[i]));
    Join("\n", PopularPokemon)
  }

  /** The ASCII upper case of a letter. */
  function Upper(c: char): char
  {
    if 'a' <= c <= 'z' then (c as int - 32) as char else c
  }

  /** The ASCII `capitalize` of a lower-case name. */
  function AsciiCapitalize(s: string): string
  {
    if s == [] then s else [Upper(s[0])] + s[1..]
  }

  /** The popular list names the squad's six candidates, capitalised, in the same order. */
  lemma PopularAreTheCandidates()
    ensures |PopularPokemon| == |TopPokemon|
    ensures forall i :: 0 <= i < |TopPokemon| ==> PopularPokemon[i] == AsciiCapitalize(TopPokemon[i])
  {
    forall i | 0 <= i < |TopPokemon| ensures PopularPokemon[i] == AsciiCapitalize(TopPokemon[i]) {
      var t := TopPokemon[i];
      var p := PopularPokemon[i];
      assert p[0] == Upper(t[0]);
      assert p[1..] == t[1..];
    }
  }
}
