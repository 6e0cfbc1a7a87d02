/** The member inventory: its validation and its selector algebra
    (crates/mandala-core/src/inventory.rs). */
module Inventory {
  import opened Wrappers
  import opened Order
  import opened Selector

  /** An evaluated aggregate: each member key with its `host.name`, if that is a string, and the
      groups. */
  datatype Aggregate = Aggregate(members: map<string, Option<string>>, groups: map<string, seq<string>>)

  /** What is wrong with one member or one group. */
  datatype Fault =
    | NotAHostname(key: string)
    | NameMismatch(key: string, name: string)
    | NoName(key: string)
    | ReservedGroup(group: string)
    | UnknownMember(group: string, member: string)

  datatype Error =
    | UnsupportedSchema(found: Option<nat>)
    | Malformed(fault: Fault)
    | EmptySelector
    | ResolvesToNothing(selector: string)
    | NoSuchGroup(group: string, available: seq<string>)
    | NoSuchMember(name: string)

  predicate Alphanumeric(c: char) {
    '0' <= c <= '9' || 'a' <= c <= 'z' || 'A' <= c <= 'Z'
  }

  function Lower(s: string): string {
    seq(|s|, i requires 0 <= i < |s| => if 'A' <= s[i] <= 'Z' then s[i] - 'A' + 'a' else s[i])
  }

  predicate IsMemberName(name: string) {
    && 1 <= |name| <= 63
    && Alphanumeric(name[0]) && Alphanumeric(name[|name| - 1])
    && (forall c :: c in name ==> Alphanumeric(c) || c == '-')
    && Lower(name) != "all"
  }

  predicate MemberOk(agg: Aggregate, key: string) {
    IsMemberName(key) && key in agg.members && agg.members[key] == Some(key)
  }

  predicate GroupOk(agg: Aggregate, group: string) {
    group in agg.groups && Lower(group) != "all" && Elements(agg.groups[group]) <= agg.members.Keys
  }

  predicate Validated(agg: Aggregate) {
    (forall k :: k in agg.members ==> MemberOk(agg, k)) && (forall g :: g in agg.groups ==> GroupOk(agg, g))
  }

  const SUPPORTED_SCHEMA_VERSION: nat := 1

  function MemberFault(key: string, name: Option<string>): Option<Fault> {
    if !IsMemberName(key) then Some(NotAHostname(key))
    else match name
      case None => Some(NoName(key))
      case Some(n) => if n == key then None else Some(NameMismatch(key, n))
  }

  function FirstMemberFault(agg: Aggregate, keys: seq<string>): (r: Option<Fault>)
    requires forall k :: k in keys ==> k in agg.members
    ensures r.None? <==> forall k :: k in keys ==> MemberOk(agg, k)
  {
    if keys == [] then None
    else if MemberFault(keys[0], agg.members[keys[0]]).Some? then MemberFault(keys[0], agg.members[keys[0]])
    else
      assert keys == [keys[0]] + keys[1..];
      FirstMemberFault(agg, keys[1..])
  }

  function FirstStranger(agg: Aggregate, names: seq<string>): (r: Option<string>)
    ensures r.None? <==> Elements(names) <= agg.members.Keys
    ensures r.Some? ==> r.value in names && r.value !in agg.members
  {
    if names == [] then None
    else if names[0] !in agg.members then assert names[0] in Elements(names); Some(names[0])
    else
      assert Elements(names) == {names[0]} + Elements(names[1..]);
      FirstStranger(agg, names[1..])
  }

  function GroupFault(agg: Aggregate, group: string): Option<Fault>
    requires group in agg.groups
  {
    if Lower(group) == "all" then Some(ReservedGroup(group))
    else match FirstStranger(agg, agg.groups[group])
      case None => None
      case Some(m) => Some(UnknownMember(group, m))
  }

  function FirstGroupFault(agg: Aggregate, groups: seq<string>): (r: Option<Fault>)
    requires forall g :: g in groups ==> g in agg.groups
    ensures r.None? <==> forall g :: g in groups ==> GroupOk(agg, g)
  {
    if groups == [] then None
    else if GroupFault(agg, groups[0]).Some? then GroupFault(agg, groups[0])
    else
      assert groups == [groups[0]] + groups[1..];
      FirstGroupFault(agg, groups[1..])
  }

  /** The ordered keys of a map, and nothing else. */
  lemma ListedKeys(keys: set<string>)
    ensures forall k :: k in Listing(keys) <==> k in keys
  {
    assert forall k :: k in Listing(keys) <==> k in Elements(Listing(keys));
  }

  /** The fault is this member's: no bare host label, another name, or none. */
  predicate BlamesMember(agg: Aggregate, key: string, fault: Fault)
    requires key in agg.members
  {
    match fault
    case NotAHostname(k) => k == key && !IsMemberName(key)
    case NoName(k) => k == key && IsMemberName(key) && agg.members[key].None?
    case NameMismatch(k, name) => k == key && IsMemberName(key) && agg.members[key] == Some(name) && name != key
    case _ => false
  }

  /** The fault is this group's: a reserved name, or the first member nobody knows. */
  predicate BlamesGroup(agg: Aggregate, group: string, fault: Fault)
    requires group in agg.groups
  {
    match fault
    case ReservedGroup(g) => g == group && Lower(group) == "all"
    case UnknownMember(g, m) => g == group && Lower(group) != "all" && m in agg.groups[group] && m !in agg.members
    case _ => false
  }

  method CheckMembers(agg: Aggregate, keys: seq<string>) returns (fault: Option<Fault>)
    requires forall k :: k in keys ==> k in agg.members
    ensures fault == FirstMemberFault(agg, keys)
    ensures fault.None? ==> forall k :: k in keys ==> MemberOk(agg, k)
    ensures fault.Some? ==>
              exists i :: 0 <= i < |keys| && BlamesMember(agg, keys[i], fault.value)
                          && forall j :: 0 <= j < i ==> MemberOk(agg, keys[j])
  {
    for i := 0 to |keys|
      invariant FirstMemberFault(agg, keys) == FirstMemberFault(agg, keys[i..])
      invariant forall j :: 0 <= j < i ==> MemberOk(agg, keys[j])
    {
      assert keys[i..][1..] == keys[i + 1..];
      fault := MemberFault(keys[i], agg.members[keys[i]]);
      if fault.Some? {
        return;
      }
    }
    fault := None;
  }

  method CheckGroups(agg: Aggregate, groups: seq<string>) returns (fault: Option<Fault>)
    requires forall g :: g in groups ==> g in agg.groups
    ensures fault == FirstGroupFault(agg, groups)
    ensures fault.None? ==> forall g :: g in groups ==> GroupOk(agg, g)
    ensures fault.Some? ==>
              exists i :: 0 <= i < |groups| && BlamesGroup(agg, groups[i], fault.value)
                          && forall j :: 0 <= j < i ==> GroupOk(agg, groups[j])
  {
    for i := 0 to |groups|
      invariant FirstGroupFault(agg, groups) == FirstGroupFault(agg, groups[i..])
      invariant forall j :: 0 <= j < i ==> GroupOk(agg, groups[j])
    {
      assert groups[i..][1..] == groups[i + 1..];
      fault := GroupFault(agg, groups[i]);
      if fault.Some? {
        return;
      }
    }
    fault := None;
  }

  /** The first fault: members in key order, then groups in key order. */
  ghost function FirstFault(agg: Aggregate): (r: Option<Fault>)
    ensures r.None? <==> Validated(agg)
  {
    ListedKeys(agg.members.Keys);
    ListedKeys(agg.groups.Keys);
    var fault := FirstMemberFault(agg, Listing(agg.members.Keys));
    if fault.Some? then fault else FirstGroupFault(agg, Listing(agg.groups.Keys))
  }

  /** The checks of `from_value_for_controller`: the schema version, then members and groups up to
      the first fault. */
  method Construct(schema: Option<nat>, agg: Aggregate) returns (r: Result<Aggregate, Error>)
    ensures r == if schema != Some(SUPPORTED_SCHEMA_VERSION) then Err(UnsupportedSchema(schema))
                 else if Validated(agg) then Ok(agg)
                 else Err(Malformed(FirstFault(agg).value))
  {
    if schema != Some(SUPPORTED_SCHEMA_VERSION) {
      return Err(UnsupportedSchema(schema));
    }
    ListedKeys(agg.members.Keys);
    ListedKeys(agg.groups.Keys);
    var keys := Sort(agg.members.Keys);
    var fault := CheckMembers(agg, keys);
    if fault.None? {
      var groups := Sort(agg.groups.Keys);
      fault := CheckGroups(agg, groups);
    }
    assert fault == FirstFault(agg);
    return if fault.Some? then Err(Malformed(fault.value)) else Ok(agg);
  }

  // ---- what a selector means ----

  predicate Negated(part: string) {
    part != [] && part[0] == '!'
  }

  /** The part without its one leading `!`; nothing is trimmed again. */
  function Atom(part: string): string {
    if Negated(part) then part[1..] else part
  }

  predicate Everything(atom: string) {
    atom == "all" || atom == "@all"
  }

  predicate Known(agg: Aggregate, atom: string) {
    Everything(atom) || (if atom != [] && atom[0] == '@' then atom[1..] in agg.groups else atom in agg.members)
  }

  function Denoted(agg: Aggregate, atom: string): set<string>
    requires Known(agg, atom)
  {
    if Everything(atom) then agg.members.Keys
    else if atom != [] && atom[0] == '@' then Elements(agg.groups[atom[1..]])
    else {atom}
  }

  ghost function Unknown(agg: Aggregate, atom: string): Error {
    if atom != [] && atom[0] == '@' then NoSuchGroup(atom[1..], Listing(agg.groups.Keys)) else NoSuchMember(atom)
  }

  predicate AllKnown(agg: Aggregate, parts: set<string>) {
    forall p :: p in parts ==> Known(agg, Atom(p))
  }

  /** The members the parts of one sign denote together. */
  function Union(agg: Aggregate, parts: set<string>, negated: bool): set<string>
    requires AllKnown(agg, parts)
  {
    set p, m | p in parts && Negated(p) == negated && m in Denoted(agg, Atom(p)) :: m
  }

  predicate Includes(parts: set<string>) {
    exists p :: p in parts && !Negated(p)
  }

  /** The union of the included parts, or everything when there is none, minus the excluded ones. */
  function Meaning(agg: Aggregate, parts: set<string>): set<string>
    requires AllKnown(agg, parts)
  {
    (if Includes(parts) then Union(agg, parts, false) else agg.members.Keys) - Union(agg, parts, true)
  }

  /** The first part, in order, that names nothing. */
  function FirstUnknown(agg: Aggregate, parts: seq<string>): (r: Option<string>)
    ensures r.None? <==> AllKnown(agg, Elements(parts))
  {
    if parts == [] then None
    else if !Known(agg, Atom(parts[0])) then assert parts[0] in Elements(parts); Some(parts[0])
    else
      assert Elements(parts) == {parts[0]} + Elements(parts[1..]);
      FirstUnknown(agg, parts[1..])
  }

  /** What `resolve` gives for a selector, error cases included. */
  ghost function Resolved(agg: Aggregate, selector: string): Result<seq<string>, Error> {
    var parts := Parts(Pieces(selector));
    match FirstUnknown(agg, parts)
    case Some(p) => Err(Unknown(agg, Atom(p)))
    case None =>
      if !Includes(Elements(parts)) && Union(agg, Elements(parts), true) == {} then Err(EmptySelector)
      else if Meaning(agg, Elements(parts)) == {} then Err(ResolvesToNothing(selector))
      else Ok(Listing(Meaning(agg, Elements(parts))))
  }

  method ResolvePart(agg: Aggregate, atom: string) returns (r: Result<set<string>, Error>)
    ensures r == if Known(agg, atom) then Ok(Denoted(agg, atom)) else Err(Unknown(agg, atom))
    ensures atom in {"all", "@all"} ==> r == Ok(agg.members.Keys)
    ensures atom !in {"all", "@all"} && (atom == [] || atom[0] != '@') ==>
              r == if atom in agg.members then Ok({atom}) else Err(NoSuchMember(atom))
    ensures atom !in {"all", "@all"} && atom != [] && atom[0] == '@' ==>
              if atom[1..] in agg.groups then r == Ok(Elements(agg.groups[atom[1..]]))
              else r.Err? && r.error.NoSuchGroup? && r.error.group == atom[1..]
                   && Elements(r.error.available) == agg.groups.Keys && Ascending(r.error.available)
  {
    if atom == "all" || atom == "@all" {
      return Ok(agg.members.Keys);
    }
    if atom != [] && atom[0] == '@' {
      if atom[1..] in agg.groups {
        return Ok(Elements(agg.groups[atom[1..]]));
      }
      var available := Sort(agg.groups.Keys);
      return Err(NoSuchGroup(atom[1..], available));
    }
    if atom !in agg.members {
      return Err(NoSuchMember(atom));
    }
    return Ok({atom});
  }

  lemma {:induction false} FirstUnknownStands(agg: Aggregate, before: seq<string>, part: string, rest: seq<string>)
    requires AllKnown(agg, Elements(before)) && !Known(agg, Atom(part))
    ensures FirstUnknown(agg, before + [part] + rest) == Some(part)
    decreases |before|
  {
    var all := before + [part] + rest;
    if before != [] {
      assert before[0] in Elements(before);
      assert all[1..] == before[1..] + [part] + rest;
      assert forall p :: p in Elements(before[1..]) ==> p in Elements(before);
      FirstUnknownStands(agg, before[1..], part, rest);
    }
  }

  lemma Regroup(a: seq<string>, b: seq<string>, c: seq<string>)
    ensures a + (b + c) == (a + b) + c
  {
  }

  lemma {:induction false} PartsAppend(a: seq<string>, b: seq<string>)
    ensures Parts(a + b) == Parts(a) + Parts(b)
    decreases |a|
  {
    if a == [] {
      assert a + b == b;
    } else {
      PartsAppend(a[1..], b);
      assert (a + b)[1..] == a[1..] + b;
      Regroup(if Trim(a[0]) == [] then [] else [Trim(a[0])], Parts(a[1..]), Parts(b));
    }
  }

  lemma CutAt(pieces: seq<string>, i: nat)
    requires i <= |pieces|
    ensures pieces[..i] + pieces[i..] == pieces
  {
  }

  lemma PartsOfPrefix(pieces: seq<string>, i: nat)
    requires i < |pieces|
    ensures Parts(pieces[..i + 1]) == Parts(pieces[..i]) + Parts([pieces[i]])
  {
    PartsAppend(pieces[..i], [pieces[i]]);
    assert pieces[..i + 1] == pieces[..i] + [pieces[i]];
  }

  lemma PartsSplit(pieces: seq<string>, i: nat)
    requires i <= |pieces|
    ensures Parts(pieces) == Parts(pieces[..i]) + Parts(pieces[i..])
  {
    CutAt(pieces, i);
    PartsAppend(pieces[..i], pieces[i..]);
  }

  lemma UnionGrows(agg: Aggregate, before: set<string>, part: string, negated: bool)
    requires AllKnown(agg, before) && Known(agg, Atom(part))
    ensures AllKnown(agg, before + {part})
    ensures Union(agg, before + {part}, negated)
            == Union(agg, before, negated) + if Negated(part) == negated then Denoted(agg, Atom(part)) else {}
  {
  }

  /** The running sets of `resolve` after the parts `done`. */
  predicate Gathered(agg: Aggregate, done: seq<string>, includes: set<string>, excludes: set<string>,
                     sawInclude: bool) {
    && AllKnown(agg, Elements(done))
    && includes == Union(agg, Elements(done), false)
    && excludes == Union(agg, Elements(done), true)
    && sawInclude == Includes(Elements(done))
  }

  lemma GatherOne(agg: Aggregate, done: seq<string>, includes: set<string>, excludes: set<string>,
                  sawInclude: bool, part: string)
    requires Gathered(agg, done, includes, excludes, sawInclude) && Known(agg, Atom(part))
    ensures Negated(part) ==>
              Gathered(agg, done + [part], includes, excludes + Denoted(agg, Atom(part)), sawInclude)
    ensures !Negated(part) ==>
              Gathered(agg, done + [part], includes + Denoted(agg, Atom(part)), excludes, true)
  {
    UnionGrows(agg, Elements(done), part, false);
    UnionGrows(agg, Elements(done), part, true);
    assert Elements(done + [part]) == Elements(done) + {part};
    if !Negated(part) {
      assert part in Elements(done + [part]);
    } else if Includes(Elements(done)) {
      var p :| p in Elements(done) && !Negated(p);
      assert p in Elements(done + [part]);
    }
  }

  lemma PartsOfOne(piece: string)
    ensures Parts([piece]) == if Trim(piece) == [] then [] else [Trim(piece)]
  {
    assert [piece][1..] == [];
  }

  lemma RefusedAt(agg: Aggregate, pieces: seq<string>, i: nat)
    requires i < |pieces| && Trim(pieces[i]) != [] && !Known(agg, Atom(Trim(pieces[i])))
    requires AllKnown(agg, Elements(Parts(pieces[..i])))
    ensures FirstUnknown(agg, Parts(pieces)) == Some(Trim(pieces[i]))
  {
    PartsSplit(pieces, i + 1);
    PartsOfPrefix(pieces, i);
    PartsOfOne(pieces[i]);
    FirstUnknownStands(agg, Parts(pieces[..i]), Trim(pieces[i]), Parts(pieces[i + 1..]));
  }

  /** One turn of the loop of `resolve`. */
  method TakePiece(agg: Aggregate, pieces: seq<string>, i: nat,
                   includes: set<string>, excludes: set<string>, sawInclude: bool)
    returns (refused: Option<Error>, moreIncludes: set<string>, moreExcludes: set<string>, seen: bool)
    requires i < |pieces| && Gathered(agg, Parts(pieces[..i]), includes, excludes, sawInclude)
    ensures refused.Some? ==>
              FirstUnknown(agg, Parts(pieces)) == Some(Trim(pieces[i]))
              && refused.value == Unknown(agg, Atom(Trim(pieces[i])))
    ensures refused.None? ==> Gathered(agg, Parts(pieces[..i + 1]), moreIncludes, moreExcludes, seen)
  {
    refused, moreIncludes, moreExcludes, seen := None, includes, excludes, sawInclude;
    var part := Trim(pieces[i]);
    PartsOfPrefix(pieces, i);
    PartsOfOne(pieces[i]);
    if part == [] {
      assert Parts(pieces[..i]) + [] == Parts(pieces[..i]);
      return;
    }
    var found := ResolvePart(agg, Atom(part));
    if found.Err? {
      RefusedAt(agg, pieces, i);
      refused := Some(found.error);
      return;
    }
    GatherOne(agg, Parts(pieces[..i]), includes, excludes, sawInclude, part);
    if part[0] == '!' {
      moreExcludes := excludes + found.value;
    } else {
      seen, moreIncludes := true, includes + found.value;
    }
  }

  /** The loop of `resolve`: one part after the other until one names nothing. */
  method Gather(agg: Aggregate, pieces: seq<string>)
    returns (refused: Option<Error>, includes: set<string>, excludes: set<string>, sawInclude: bool)
    ensures match FirstUnknown(agg, Parts(pieces)) {
              case Some(p) => refused == Some(Unknown(agg, Atom(p)))
              case None => refused.None? && Gathered(agg, Parts(pieces), includes, excludes, sawInclude)
            }
  {
    refused, includes, excludes, sawInclude := None, {}, {}, false;
    var i := 0;
    while i < |pieces|
      invariant 0 <= i <= |pieces|
      invariant Gathered(agg, Parts(pieces[..i]), includes, excludes, sawInclude)
    {
      refused, includes, excludes, sawInclude := TakePiece(agg, pieces, i, includes, excludes, sawInclude);
      if refused.Some? {
        return;
      }
      i := i + 1;
    }
    assert pieces[..i] == pieces;
    refused := None;
  }

  /** `resolve`. */
  method Resolve(agg: Aggregate, selector: string) returns (r: Result<seq<string>, Error>)
    ensures r == Resolved(agg, selector)
  {
    var refused, included, excluded, sawInclude := Gather(agg, Pieces(selector));
    if refused.Some? {
      return Err(refused.value);
    }
    if !sawInclude {
      if excluded == {} {
        return Err(EmptySelector);
      }
      included := agg.members.Keys;
    }
    if included - excluded == {} {
      return Err(ResolvesToNothing(selector));
    }
    var resolved := Sort(included - excluded);
    return Ok(resolved);
  }

  lemma {:induction false} JoinOneMore(names: seq<string>, i: nat)
    requires 0 < i < |names|
    ensures Join(names[..i + 1]) == Join(names[..i]) + [','] + names[i]
    decreases i
  {
    if i > 1 {
      JoinOneMore(names[1..], i - 1);
      assert names[..i + 1][1..] == names[1..][..i] && names[..i][1..] == names[1..][..i - 1];
      var head, mid := names[0] + [','], Join(names[1..][..i - 1]);
      assert head + (mid + [','] + names[i]) == head + mid + [','] + names[i];
    } else {
      assert names[..2][1..] == [names[1]] && names[..1] == [names[0]];
    }
  }

  method JoinAll(names: seq<string>) returns (limit: string)
    ensures limit == Join(names)
  {
    limit := [];
    var i := 0;
    while i < |names|
      invariant 0 <= i <= |names| && limit == Join(names[..i])
    {
      if i == 0 {
        assert names[..1] == [names[0]];
        limit := names[0];
      } else {
        JoinOneMore(names, i);
        limit := limit + [','] + names[i];
      }
      i := i + 1;
    }
    assert names[..i] == names;
  }

  /** `to_limit`. */
  method ToLimit(agg: Aggregate, selector: string) returns (r: Result<string, Error>)
    ensures Resolved(agg, selector).Ok? ==> r == Ok(Join(Resolved(agg, selector).value))
    ensures Resolved(agg, selector).Err? ==> r == Err(Resolved(agg, selector).error)
  {
    var resolved := Resolve(agg, selector);
    if resolved.Err? {
      return Err(resolved.error);
    }
    var limit := JoinAll(resolved.value);
    return Ok(limit);
  }

  // ---- what the selector algebra promises ----

  /** A successful resolution is a non-empty, strictly ascending list of members. */
  lemma ResolutionIsCanonical(agg: Aggregate, selector: string)
    requires Validated(agg) && Resolved(agg, selector).Ok?
    ensures var r := Resolved(agg, selector).value; r != [] && Ascending(r) && forall m :: m in r ==> m in agg.members
  {
    var parts := PartSet(selector);
    var r := Resolved(agg, selector).value;
    assert Elements(r) == Meaning(agg, parts);
    forall m | m in r ensures m in agg.members {
      assert m in Elements(r);
      if Includes(parts) {
        var p :| p in parts && !Negated(p) && m in Denoted(agg, Atom(p));
        DenotedAreMembers(agg, Atom(p));
      }
    }
  }

  lemma DenotedAreMembers(agg: Aggregate, atom: string)
    requires Validated(agg) && Known(agg, atom)
    ensures Denoted(agg, atom) <= agg.members.Keys
  {
    if !Everything(atom) && atom != [] && atom[0] == '@' {
      assert GroupOk(agg, atom[1..]);
    }
  }

  lemma MemberNamesStandForThemselves(agg: Aggregate, name: string)
    requires Validated(agg) && name in agg.members
    ensures Tidy(name) && !Negated(name) && Known(agg, Atom(name)) && Denoted(agg, Atom(name)) == {name}
  {
    assert MemberOk(agg, name);
    assert name[0] in name;
    assert Lower("all") == "all";
  }

  /** The canonical form is a selector for exactly the set it was made from: resolving it again
      gives the same list. Whole-fleet and group spellings included, nothing is lost in the
      confirm token. */
  lemma CanonicalFormResolvesToItself(agg: Aggregate, selector: string)
    requires Validated(agg) && Resolved(agg, selector).Ok?
    ensures Resolved(agg, Join(Resolved(agg, selector).value)) == Resolved(agg, selector)
  {
    var r := Resolved(agg, selector).value;
    ResolutionIsCanonical(agg, selector);
    forall n | n in r ensures Tidy(n) && !Negated(n) && Known(agg, Atom(n)) && Denoted(agg, Atom(n)) == {n} {
      MemberNamesStandForThemselves(agg, n);
    }
    SplittingUndoesJoining(r);
    TidyPiecesAreParts(r);
    MembersMeanThemselves(agg, r);
    ListingIs(Elements(r), r);
  }

  lemma MembersMeanThemselves(agg: Aggregate, r: seq<string>)
    requires r != []
    requires forall n :: n in r ==> !Negated(n) && Known(agg, Atom(n)) && Denoted(agg, Atom(n)) == {n}
    ensures AllKnown(agg, Elements(r)) && Includes(Elements(r)) && Meaning(agg, Elements(r)) == Elements(r)
  {
    assert r[0] in Elements(r);
    forall m ensures m in Union(agg, Elements(r), false) <==> m in Elements(r) {
      if m in Elements(r) {
        assert m in Denoted(agg, Atom(m));
      }
    }
    assert Union(agg, Elements(r), true) == {};
  }

  /** Equal confirm tokens come only from equal sets. */
  lemma CanonicalFormIsInjective(agg: Aggregate, s: string, t: string)
    requires Validated(agg) && Resolved(agg, s).Ok? && Resolved(agg, t).Ok?
    ensures Join(Resolved(agg, s).value) == Join(Resolved(agg, t).value) <==> Resolved(agg, s) == Resolved(agg, t)
  {
    CanonicalFormResolvesToItself(agg, s);
    CanonicalFormResolvesToItself(agg, t);
  }

  /** Success and result depend only on which trimmed, non-empty parts there are. */
  lemma OnlyThePartsMatter(agg: Aggregate, s: string, t: string)
    requires PartSet(s) == PartSet(t)
    ensures Resolved(agg, s).Ok? <==> Resolved(agg, t).Ok?
    ensures Resolved(agg, s).Ok? ==> Resolved(agg, s) == Resolved(agg, t)
  {
  }

  /** Reordering or repeating pieces, and writing `:` for `,` anywhere, changes neither success
      nor the result. */
  lemma OrderAndSeparatorDoNotMatter(agg: Aggregate, ps: seq<string>, qs: seq<string>, t: string)
    requires ps != [] && Elements(ps) == Elements(qs) && forall p :: p in ps ==> Plain(p)
    requires |t| == |Join(qs)|
    requires forall i :: 0 <= i < |t| ==> t[i] == Join(qs)[i] || (Separator(t[i]) && Separator(Join(qs)[i]))
    ensures Resolved(agg, t).Ok? <==> Resolved(agg, Join(ps)).Ok?
    ensures Resolved(agg, t).Ok? ==> Resolved(agg, t) == Resolved(agg, Join(ps))
  {
    assert ps[0] in Elements(ps);
    assert forall p :: p in qs ==> p in Elements(ps);
    SplittingUndoesJoining(ps);
    SplittingUndoesJoining(qs);
    SeparatorsAreInterchangeable(t, Join(qs));
    PartsIgnoreOrder(ps, qs);
    OnlyThePartsMatter(agg, t, Join(ps));
  }

  /** `EmptySelector` is also the answer for a selector that does name something: exclusions of
      groups with no members. */
  lemma EmptySelectorIffOnlyEmptyExclusions(agg: Aggregate, selector: string)
    ensures Resolved(agg, selector) == Err(EmptySelector) <==>
            forall p :: p in PartSet(selector) ==> Negated(p) && Known(agg, Atom(p)) && Denoted(agg, Atom(p)) == {}
  {
    var parts := PartSet(selector);
    if AllKnown(agg, parts) {
      forall p | p in parts && Negated(p) ensures Denoted(agg, Atom(p)) <= Union(agg, parts, true) {
      }
    }
  }

  lemma ExclusionIsOnePart(name: string)
    requires Tidy(name)
    ensures Parts(Pieces("!" + name)) == ["!" + name] && Atom("!" + name) == name
  {
    var part := "!" + name;
    PlainPrefixStaysWhole(part, []);
    assert part + [] == part && part[|part| - 1] == name[|name| - 1] && part[1..] == name;
    TidyPiecesAreParts([part]);
  }

  lemma ExclusionMeans(agg: Aggregate, part: string, name: string)
    requires Negated(part) && Known(agg, Atom(part)) && Denoted(agg, Atom(part)) == {name}
    ensures AllKnown(agg, {part}) && !Includes({part}) && Union(agg, {part}, true) == {name}
  {
    assert part in {part};
    assert name in Denoted(agg, Atom(part));
  }

  /** A bare exclusion starts from the whole fleet. */
  lemma BareExclusionMeansAllBut(agg: Aggregate, name: string)
    requires Validated(agg) && name in agg.members && agg.members.Keys != {name}
    ensures Resolved(agg, "!" + name) == Ok(Listing(agg.members.Keys - {name}))
  {
    var part := "!" + name;
    MemberNamesStandForThemselves(agg, name);
    ExclusionIsOnePart(name);
    ExclusionMeans(agg, part, name);
    assert Elements([part]) == {part};
    assert agg.members.Keys == {name} + (agg.members.Keys - {name});
  }

  // ---- what selectors mean together ----

  lemma PartsOfBoth(s: string, t: string)
    ensures Parts(Pieces(s + "," + t)) == Parts(Pieces(s)) + Parts(Pieces(t))
    ensures PartSet(s + "," + t) == PartSet(s) + PartSet(t)
  {
    PiecesAppend(s, ',', t);
    PartsAppend(Pieces(s), Pieces(t));
    assert "," == [','];
  }

  /** A selector whose parts are known, from the set of its parts. */
  lemma ResolvedByParts(agg: Aggregate, s: string, parts: set<string>)
    requires parts == PartSet(s) && AllKnown(agg, parts) && (Includes(parts) || Union(agg, parts, true) != {})
    ensures Resolved(agg, s) == if Meaning(agg, parts) == {} then Err(ResolvesToNothing(s))
                                else Ok(Listing(Meaning(agg, parts)))
  {
  }

  lemma OkMeans(agg: Aggregate, s: string, parts: set<string>)
    requires parts == PartSet(s) && Resolved(agg, s).Ok?
    ensures AllKnown(agg, parts) && (Includes(parts) || Union(agg, parts, true) != {})
    ensures Elements(Resolved(agg, s).value) == Meaning(agg, parts) != {}
  {
  }

  lemma MeaningWithoutOne(agg: Aggregate, parts: set<string>, part: string, name: string)
    requires AllKnown(agg, parts) && Negated(part) && Known(agg, Atom(part)) && Denoted(agg, Atom(part)) == {name}
    ensures AllKnown(agg, parts + {part}) && (Includes(parts + {part}) <==> Includes(parts))
    ensures Meaning(agg, parts + {part}) == Meaning(agg, parts) - {name}
    ensures name in Union(agg, parts + {part}, true)
  {
    UnionGrows(agg, parts, part, true);
    UnionGrows(agg, parts, part, false);
    if Includes(parts) {
      var p :| p in parts && !Negated(p);
      assert p in parts + {part};
    }
  }

  lemma PartsWithOneExcluded(s: string, name: string)
    requires Tidy(name)
    ensures PartSet(s + "," + ("!" + name)) == PartSet(s) + {"!" + name}
  {
    ExclusionIsOnePart(name);
    PartsOfBoth(s, "!" + name);
    assert Elements(["!" + name]) == {"!" + name};
  }

  /** Excluding a member takes exactly that member out of what a selector gives, whether the
      selector includes or excludes. */
  lemma ExcludingTakesOneOut(agg: Aggregate, s: string, name: string)
    requires Validated(agg) && Resolved(agg, s).Ok? && name in agg.members
    ensures var both := s + "," + ("!" + name); var left := Elements(Resolved(agg, s).value) - {name};
            Resolved(agg, both) == if left == {} then Err(ResolvesToNothing(both)) else Ok(Listing(left))
  {
    var part, both, parts := "!" + name, s + "," + ("!" + name), PartSet(s);
    MemberNamesStandForThemselves(agg, name);
    ExclusionIsOnePart(name);
    PartsWithOneExcluded(s, name);
    OkMeans(agg, s, parts);
    MeaningWithoutOne(agg, parts, part, name);
    ResolvedByParts(agg, both, parts + {part});
  }

  /** The selector excludes nothing. */
  predicate IncludesOnly(s: string) {
    forall p :: p in PartSet(s) ==> p == [] || p[0] != '!'
  }

  lemma IncludedMeaning(agg: Aggregate, s: string, parts: set<string>)
    requires parts == PartSet(s) && Resolved(agg, s).Ok? && IncludesOnly(s)
    ensures AllKnown(agg, parts) && Includes(parts) && Union(agg, parts, true) == {}
    ensures Elements(Resolved(agg, s).value) == Union(agg, parts, false) != {}
  {
    assert Union(agg, parts, true) == {};
    OkMeans(agg, s, parts);
  }

  lemma UnionOfBoth(agg: Aggregate, a: set<string>, b: set<string>, negated: bool)
    requires AllKnown(agg, a) && AllKnown(agg, b)
    ensures AllKnown(agg, a + b) && Union(agg, a + b, negated) == Union(agg, a, negated) + Union(agg, b, negated)
  {
  }

  lemma IncludesEither(a: set<string>, b: set<string>)
    requires Includes(a)
    ensures Includes(a + b)
  {
    var p :| p in a && !Negated(p);
    assert p in a + b;
  }

  lemma MeaningOfBoth(agg: Aggregate, a: set<string>, b: set<string>, x: set<string>, y: set<string>)
    requires AllKnown(agg, a) && Includes(a) && Union(agg, a, true) == {} && Union(agg, a, false) == x
    requires AllKnown(agg, b) && Includes(b) && Union(agg, b, true) == {} && Union(agg, b, false) == y
    ensures AllKnown(agg, a + b) && Includes(a + b) && Meaning(agg, a + b) == x + y
  {
    UnionOfBoth(agg, a, b, false);
    UnionOfBoth(agg, a, b, true);
    IncludesEither(a, b);
  }

  lemma ResolvedToSet(agg: Aggregate, s: string, parts: set<string>, meaning: set<string>)
    requires parts == PartSet(s) && AllKnown(agg, parts) && Includes(parts)
    requires Meaning(agg, parts) == meaning != {}
    ensures Resolved(agg, s) == Ok(Listing(meaning))
  {
    ResolvedByParts(agg, s, parts);
  }

  /** Two selectors that exclude nothing give, side by side, the sorted union of what each gives. */
  lemma SideBySideIsTheUnion(agg: Aggregate, s: string, t: string)
    requires Resolved(agg, s).Ok? && Resolved(agg, t).Ok? && IncludesOnly(s) && IncludesOnly(t)
    ensures Resolved(agg, s + "," + t) ==
            Ok(Listing(Elements(Resolved(agg, s).value) + Elements(Resolved(agg, t).value)))
  {
    PartsOfBoth(s, t);
    IncludedMeaning(agg, s, PartSet(s));
    IncludedMeaning(agg, t, PartSet(t));
    MeaningOfBoth(agg, PartSet(s), PartSet(t), Elements(Resolved(agg, s).value), Elements(Resolved(agg, t).value));
    ResolvedToSet(agg, s + "," + t, PartSet(s) + PartSet(t),
                  Elements(Resolved(agg, s).value) + Elements(Resolved(agg, t).value));
  }

  lemma OneTidyPart(agg: Aggregate, part: string)
    requires Tidy(part) && !Negated(part)
    ensures Parts(Pieces(part)) == [part] && PartSet(part) == {part}
    ensures Known(agg, part) ==> Includes({part}) && Meaning(agg, {part}) == Denoted(agg, part)
  {
    PlainPrefixStaysWhole(part, []);
    assert part + [] == part;
    TidyPiecesAreParts([part]);
    assert part in {part};
    if Known(agg, part) {
      forall m ensures m in Union(agg, {part}, false) <==> m in Denoted(agg, part) {
        assert m in Denoted(agg, part) ==> m in Denoted(agg, Atom(part));
      }
      assert Union(agg, {part}, true) == {};
    }
  }

  /** The atom names the member: the whole fleet, a group it belongs to, or itself. */
  predicate Names(agg: Aggregate, atom: string, m: string) {
    if atom in {"all", "@all"} then m in agg.members
    else if atom != [] && atom[0] == '@' then atom[1..] in agg.groups && m in agg.groups[atom[1..]]
    else m == atom
  }

  predicate Chosen(agg: Aggregate, parts: set<string>, m: string) {
    && (m in agg.members || exists p :: p in parts && p != [] && p[0] != '!')
    && ((exists p :: p in parts && p != [] && p[0] != '!') ==>
          exists p :: p in parts && p != [] && p[0] != '!' && Names(agg, p, m))
    && !exists p :: p in parts && p != [] && p[0] == '!' && Names(agg, p[1..], m)
  }

  /** Member by member: a resolution holds whom some included part names, or everybody if none is
      included, unless an excluded part names them. */
  lemma WhoIsChosen(agg: Aggregate, s: string, m: string)
    requires Resolved(agg, s).Ok?
    ensures m in Elements(Resolved(agg, s).value) <==> Chosen(agg, PartSet(s), m)
  {
    PartsAreNotEmpty(s);
    OkMeans(agg, s, PartSet(s));
    ChosenIsMeant(agg, PartSet(s), m);
  }

  lemma PartsAreNotEmpty(s: string)
    ensures forall p :: p in PartSet(s) ==> p != []
  {
    forall p | p in PartSet(s) ensures p != [] {
      PartsAreTrimmedPieces(Pieces(s), p);
    }
  }

  lemma NamedIffDenoted(agg: Aggregate, atom: string, m: string)
    requires Known(agg, atom)
    ensures m in Denoted(agg, atom) <==> Names(agg, atom, m)
  {
  }

  lemma ChosenIsMeant(agg: Aggregate, parts: set<string>, m: string)
    requires AllKnown(agg, parts) && forall p :: p in parts ==> p != []
    ensures m in Meaning(agg, parts) <==> Chosen(agg, parts, m)
  {
    forall p | p in parts ensures m in Denoted(agg, Atom(p)) <==> Names(agg, Atom(p), m) {
      NamedIffDenoted(agg, Atom(p), m);
    }
    assert m in Union(agg, parts, true) <==> exists p :: p in parts && p != [] && p[0] == '!' && Names(agg, p[1..], m);
    assert m in Union(agg, parts, false) <==> exists p :: p in parts && p != [] && p[0] != '!' && Names(agg, p, m);
  }

  /** What the three kinds of a single part give: the whole fleet, a group's members, or one. */
  lemma OnePartGives(agg: Aggregate, part: string)
    requires Tidy(part) && part[0] != '!'
    ensures part in {"all", "@all"} ==>
              Resolved(agg, part) == if agg.members.Keys == {} then Err(ResolvesToNothing(part))
                                     else Ok(Listing(agg.members.Keys))
    ensures part !in {"all", "@all"} && part[0] == '@' && part[1..] in agg.groups ==>
              Resolved(agg, part) == if agg.groups[part[1..]] == [] then Err(ResolvesToNothing(part))
                                     else Ok(Listing(Elements(agg.groups[part[1..]])))
    ensures part !in {"all", "@all"} && part[0] == '@' && part[1..] !in agg.groups ==>
              Resolved(agg, part) == Err(NoSuchGroup(part[1..], Listing(agg.groups.Keys)))
    ensures part != "all" && part[0] != '@' ==>
              Resolved(agg, part) == if part in agg.members then Ok([part]) else Err(NoSuchMember(part))
  {
    OneTidyPart(agg, part);
    if part !in {"all", "@all"} && part[0] == '@' && part[1..] in agg.groups && agg.groups[part[1..]] != [] {
      assert agg.groups[part[1..]][0] in Elements(agg.groups[part[1..]]);
    }
    if part in agg.members {
      assert Elements([part]) == {part};
      ListingIs({part}, [part]);
    }
  }
}
