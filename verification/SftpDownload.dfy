/**
 * The read-then-delete download loop of the SFTP client: what it hands over, what it removes, and what can go wrong.
 */
module SftpDownload {
  import opened Prelude
  import opened Keys
  import opened World
  import opened Formats
  import opened Clients
  import I = Ingest

  datatype Item = Item(name: string, data: Bytes)

  /** How the two calls on one listed name fare. */
  datatype Fault = Fault(read: Outcome, remove: Outcome)

  /** posixpath.join of two parts. */
  function Join(dir: string, name: string): string {
    if StartsWith(name, "/") then name
    else if dir == "" || EndsWith(dir, "/") then dir + name
    else dir + "/" + name
  }

  /** A listed name, where its file is, whether the loop wants it, and how its calls fare. */
  datatype Listed = Listed(name: string, path: string, wanted: bool, fault: Fault)

  function ListedIn(dir: string, name: string, f: Fault): Listed {
    Listed(name, Join(dir, name), IsTiffName(name), f)
  }

  function Listing(dir: string, names: seq<string>, faults: seq<Fault>): (l: seq<Listed>)
    requires |faults| == |names|
    ensures |l| == |names|
  {
    seq(|names|, i requires 0 <= i < |names| => ListedIn(dir, names[i], faults[i]))
  }

  function Visit(w: World, e: Listed): (World, seq<Item>) {
    if !e.wanted || e.fault.read != Ok || e.path !in w.files then (w, [])
    else (I.DeleteStep(w, e.path, e.fault.remove), [Item(e.name, w.files[e.path])])
  }

  /** The loop, for a consumer that takes at most `demand` items: the stores it leaves and the items it yields. */
  function Download(w: World, listing: seq<Listed>, demand: nat): (World, seq<Item>)
    decreases |listing|
  {
    if listing == [] || demand == 0 then (w, [])
    else
      var (w1, first) := Visit(w, listing[0]);
      var (w2, rest) := Download(w1, listing[1..], demand - |first|);
      (w2, first + rest)
  }

  lemma DownloadUnrolls(w: World, listing: seq<Listed>, demand: nat, w1: World, first: seq<Item>, w2: World,
                        rest: seq<Item>)
    requires listing != [] && demand > 0
    requires Visit(w, listing[0]) == (w1, first) && Download(w1, listing[1..], demand - |first|) == (w2, rest)
    ensures Download(w, listing, demand) == (w2, first + rest)
  {
  }

  // ---------------------------------------------------------------- the loop

  method Fetch(sftp: SftpClient, e: Listed) returns (items: seq<Item>)
    requires sftp.connected
    modifies sftp.servers
    ensures (sftp.servers.world, items) == Visit(old(sftp.servers.world), e)
  {
    if !e.wanted {
      return [];
    }
    var data := sftp.ReadFile(e.path, e.fault.read);
    if data.Raised? {
      return [];
    }
    var _ := sftp.DeleteFile(e.path, e.fault.remove);
    return [Item(e.name, data.value)];
  }

  /**
   * Yields while the consumer asks; a failed read leaves the file for a later call, a failed delete does not stop the
   * yield. `names` is the server's answer to the listing.
   */
  method ListAndDownloadNewFiles(sftp: SftpClient, dir: string, names: seq<string>, faults: seq<Fault>, demand: nat)
    returns (r: Answer<seq<Item>>)
    requires |faults| == |names|
    modifies sftp.servers
    ensures r.Value? <==> sftp.connected
    ensures r.Value? ==>
      (sftp.servers.world, r.value) == Download(old(sftp.servers.world), Listing(dir, names, faults), demand)
    ensures r.Raised? ==> sftp.servers.world == old(sftp.servers.world)
  {
    if !sftp.connected {
      return Raised(NoSession);
    }
    var items := Drain(sftp, Listing(dir, names, faults), demand);
    return Value(items);
  }

  method Drain(sftp: SftpClient, listing: seq<Listed>, demand: nat) returns (items: seq<Item>)
    requires sftp.connected
    modifies sftp.servers
    ensures (sftp.servers.world, items) == Download(old(sftp.servers.world), listing, demand)
  {
    assert listing[0..] == listing;
    items := [];
    var i := 0;
    while i < |listing| && |items| < demand
      invariant i <= |listing| && |items| <= demand && sftp.connected
      invariant Resumed(sftp.servers.world, listing[i..], demand, items) ==
        Resumed(old(sftp.servers.world), listing, demand, [])
    {
      ResumedVisit(sftp.servers.world, listing, i, demand, items);
      var fetched := Fetch(sftp, listing[i]);
      items := items + fetched;
      i := i + 1;
    }
    ResumedEnds(sftp.servers.world, listing[i..], demand, items);
    ResumedStarts(old(sftp.servers.world), listing, demand);
  }

  /** The loop taken up with some items yielded already. */
  ghost function Resumed(w: World, listing: seq<Listed>, demand: nat, items: seq<Item>): (World, seq<Item>)
    requires |items| <= demand
  {
    var (w', rest) := Download(w, listing, demand - |items|);
    (w', items + rest)
  }

  lemma ResumedStarts(w: World, listing: seq<Listed>, demand: nat)
    ensures Resumed(w, listing, demand, []) == Download(w, listing, demand)
  {
    var (w', items) := Download(w, listing, demand);
    assert [] + items == items;
  }

  lemma ResumedEnds(w: World, listing: seq<Listed>, demand: nat, items: seq<Item>)
    requires |items| <= demand && (listing == [] || |items| == demand)
    ensures Resumed(w, listing, demand, items) == (w, items)
  {
    assert items + [] == items;
  }

  lemma ResumedVisit(w: World, listing: seq<Listed>, i: nat, demand: nat, items: seq<Item>)
    requires i < |listing| && |items| < demand
    ensures var (w1, first) := Visit(w, listing[i]);
      Resumed(w, listing[i..], demand, items) == Resumed(w1, listing[i + 1..], demand, items + first)
  {
    assert listing[i..][0] == listing[i] && listing[i..][1..] == listing[i + 1..];
    var (w1, first) := Visit(w, listing[i]);
    var (w2, rest) := Download(w1, listing[i + 1..], demand - |items| - |first|);
    DownloadUnrolls(w, listing[i..], demand - |items|, w1, first, w2, rest);
    assert items + (first + rest) == items + first + rest;
  }

  // ---------------------------------------------------------------- conservation

  /** The yielded item is what a listed file that the loop wants held. */
  predicate Genuine(files: map<string, Bytes>, listing: seq<Listed>, item: Item) {
    exists i :: 0 <= i < |listing| && listing[i].wanted && listing[i].name == item.name
                && listing[i].path in files && files[listing[i].path] == item.data
  }

  /** The contents were yielded under a name listed at this path. */
  predicate HandedOver(listing: seq<Listed>, items: seq<Item>, path: string, data: Bytes) {
    exists i, k :: 0 <= i < |listing| && 0 <= k < |items| && listing[i].path == path
                   && items[k] == Item(listing[i].name, data)
  }

  /** What the loop hands over was on the server under a wanted name; what it removes it hands over, unchanged. */
  predicate Conserved(files: map<string, Bytes>, files': map<string, Bytes>, listing: seq<Listed>, items: seq<Item>) {
    && (forall path | path in files' :: path in files && files'[path] == files[path])
    && (forall k | 0 <= k < |items| :: Genuine(files, listing, items[k]))
    && (forall path | path in files && path !in files' :: HandedOver(listing, items, path, files[path]))
  }

  lemma VisitConserves(w: World, e: Listed, w': World, items: seq<Item>)
    requires Visit(w, e) == (w', items)
    ensures w' == w.(files := w'.files) && |items| <= 1 && Conserved(w.files, w'.files, [e], items)
  {
    if items != [] {
      VisitHandsOver(w.files, w'.files, e, w.files[e.path]);
    }
  }

  lemma VisitHandsOver(files: map<string, Bytes>, files': map<string, Bytes>, e: Listed, data: Bytes)
    requires e.wanted && e.path in files && files[e.path] == data
    requires files' == files || files' == I.Without(files, e.path)
    ensures Conserved(files, files', [e], [Item(e.name, data)])
  {
    var items := [Item(e.name, data)];
    assert [e][0] == e;
    assert Genuine(files, [e], items[0]);
    forall path | path in files && path !in files' ensures HandedOver([e], items, path, files[path]) {
      assert items[0] == Item([e][0].name, files[path]);
    }
  }

  lemma GenuineLater(files: map<string, Bytes>, files1: map<string, Bytes>, listing: seq<Listed>, item: Item)
    requires listing != [] && Genuine(files1, listing[1..], item)
    requires forall path | path in files1 :: path in files && files1[path] == files[path]
    ensures Genuine(files, listing, item)
  {
  }

  lemma HandedOverAlong(listing: seq<Listed>, first: seq<Item>, rest: seq<Item>, path: string, data: Bytes)
    requires listing != []
    requires HandedOver([listing[0]], first, path, data) || HandedOver(listing[1..], rest, path, data)
    ensures HandedOver(listing, first + rest, path, data)
  {
    if i, k :| (0 <= i < 1 && 0 <= k < |first| && [listing[0]][i].path == path
                && first[k] == Item([listing[0]][i].name, data)) {
      assert listing[0].path == path && (first + rest)[k] == Item(listing[0].name, data);
    } else {
      var i, k :| 0 <= i < |listing[1..]| && 0 <= k < |rest| && listing[1..][i].path == path
                  && rest[k] == Item(listing[1..][i].name, data);
      assert listing[i + 1].path == path && (first + rest)[|first| + k] == Item(listing[i + 1].name, data);
    }
  }

  lemma ConservedChain(files: map<string, Bytes>, files1: map<string, Bytes>, files2: map<string, Bytes>,
                       listing: seq<Listed>, first: seq<Item>, rest: seq<Item>)
    requires listing != []
    requires Conserved(files, files1, [listing[0]], first) && Conserved(files1, files2, listing[1..], rest)
    ensures Conserved(files, files2, listing, first + rest)
  {
    forall k | 0 <= k < |first + rest| ensures Genuine(files, listing, (first + rest)[k]) {
      if k < |first| {
        assert Genuine(files, [listing[0]], first[k]);
      } else {
        assert (first + rest)[k] == rest[k - |first|];
        GenuineLater(files, files1, listing, rest[k - |first|]);
      }
    }
    forall path | path in files && path !in files2 ensures HandedOver(listing, first + rest, path, files[path]) {
      assert path !in files1 ==> HandedOver([listing[0]], first, path, files[path]);
      assert path in files1 ==> HandedOver(listing[1..], rest, path, files[path]);
      HandedOverAlong(listing, first, rest, path, files[path]);
    }
  }

  /**
   * Whatever fails, and wherever the consumer stops: no file is lost, altered or removed unread, and only files change.
   */
  lemma {:induction false} Conservation(w: World, listing: seq<Listed>, demand: nat)
    ensures var (w', items) := Download(w, listing, demand);
      w' == w.(files := w'.files) && |items| <= demand && Conserved(w.files, w'.files, listing, items)
    decreases |listing|
  {
    if listing != [] && demand > 0 {
      var (w1, first) := Visit(w, listing[0]);
      var (w2, rest) := Download(w1, listing[1..], demand - |first|);
      DownloadUnrolls(w, listing, demand, w1, first, w2, rest);
      Conservation(w1, listing[1..], demand - |first|);
      ConservedStep(w, listing, demand, w1, first, w2, rest);
    }
  }

  lemma ConservedStep(w: World, listing: seq<Listed>, demand: nat, w1: World, first: seq<Item>, w2: World,
                      rest: seq<Item>)
    requires listing != [] && demand > 0 && Visit(w, listing[0]) == (w1, first)
    requires w2 == w1.(files := w2.files) && |first| + |rest| <= demand
    requires Conserved(w1.files, w2.files, listing[1..], rest)
    ensures w2 == w.(files := w2.files) && Conserved(w.files, w2.files, listing, first + rest)
  {
    VisitConserves(w, listing[0], w1, first);
    ConservedChain(w.files, w1.files, w2.files, listing, first, rest);
  }

  // ---------------------------------------------------------------- exactly what happens to each file

  /** A listing of one directory: different entries are different files, and have different names. */
  predicate Distinct(listing: seq<Listed>) {
    forall i, j | 0 <= i < j < |listing| :: listing[i].path != listing[j].path && listing[i].name != listing[j].name
  }

  /** What was yielded under one name, in order. */
  function YieldedAs(items: seq<Item>, name: string): seq<Bytes> {
    if items == [] then []
    else (if items[0].name == name then [items[0].data] else []) + YieldedAs(items[1..], name)
  }

  lemma {:induction false} YieldedAlong(first: seq<Item>, rest: seq<Item>, name: string)
    ensures YieldedAs(first + rest, name) == YieldedAs(first, name) + YieldedAs(rest, name)
  {
    if first == [] {
      assert first + rest == rest;
    } else {
      assert (first + rest)[0] == first[0] && (first + rest)[1..] == first[1..] + rest;
      YieldedAlong(first[1..], rest, name);
    }
  }

  function Lookup(files: map<string, Bytes>, path: string): Option<Bytes> {
    if path in files then Some(files[path]) else None
  }

  /** A file that is there is handed over exactly when it is wanted and could be read. */
  predicate Taken(e: Listed) {
    e.wanted && e.fault.read == Ok
  }

  lemma VisitElsewhere(w: World, other: Listed, e: Listed, w': World, items: seq<Item>)
    requires other.path != e.path && other.name != e.name && Visit(w, other) == (w', items)
    ensures Lookup(w'.files, e.path) == Lookup(w.files, e.path) && YieldedAs(items, e.name) == []
  {
  }

  lemma VisitHere(w: World, e: Listed, before: Bytes, w': World, items: seq<Item>)
    requires Lookup(w.files, e.path) == Some(before) && Visit(w, e) == (w', items)
    ensures Lookup(w'.files, e.path) == if Taken(e) && e.fault.remove.Landed() then None else Some(before)
    ensures YieldedAs(items, e.name) == if Taken(e) then [before] else []
  {
  }

  predicate Unlisted(listing: seq<Listed>, e: Listed) {
    forall i | 0 <= i < |listing| :: listing[i].path != e.path && listing[i].name != e.name
  }

  lemma {:induction false} Untouched(w: World, listing: seq<Listed>, demand: nat, e: Listed)
    requires Unlisted(listing, e)
    ensures var (w', items) := Download(w, listing, demand);
      Lookup(w'.files, e.path) == Lookup(w.files, e.path) && YieldedAs(items, e.name) == []
    decreases |listing|
  {
    if listing != [] && demand > 0 {
      var (w1, first) := Visit(w, listing[0]);
      var (w2, rest) := Download(w1, listing[1..], demand - |first|);
      DownloadUnrolls(w, listing, demand, w1, first, w2, rest);
      VisitElsewhere(w, listing[0], e, w1, first);
      Untouched(w1, listing[1..], demand - |first|, e);
      YieldedAlong(first, rest, e.name);
    }
  }

  /**
   * Drained to the end: a file that is there is yielded, once and with its bytes, exactly when it has a TIFF name and
   * could be read, and it leaves the server exactly when it was yielded and its removal happened.
   */
  lemma {:induction false} Exactly(w: World, listing: seq<Listed>, demand: nat, i: nat, e: Listed, before: Bytes)
    requires |listing| <= demand && Distinct(listing)
    requires i < |listing| && listing[i] == e && Lookup(w.files, e.path) == Some(before)
    ensures var (w', items) := Download(w, listing, demand);
      && YieldedAs(items, e.name) == (if Taken(e) then [before] else [])
      && Lookup(w'.files, e.path) == (if Taken(e) && e.fault.remove.Landed() then None else Some(before))
    decreases |listing|
  {
    var (w1, first) := Visit(w, listing[0]);
    var (w2, rest) := Download(w1, listing[1..], demand - |first|);
    DownloadUnrolls(w, listing, demand, w1, first, w2, rest);
    YieldedAlong(first, rest, e.name);
    DistinctTail(listing);
    if i == 0 {
      VisitHere(w, e, before, w1, first);
      Untouched(w1, listing[1..], demand - |first|, e);
    } else {
      ElsewhereFirst(w, listing, i, w1, first);
      Exactly(w1, listing[1..], demand - |first|, i - 1, e, before);
    }
  }

  /** The names of a directory: each once, and without a slash. */
  predicate BareNames(names: seq<string>) {
    && (forall i | 0 <= i < |names| :: SlashFree(names[i]))
    && (forall i, j | 0 <= i < j < |names| :: names[i] != names[j])
  }

  function PathIn(dir: string, name: string): string {
    if dir == "" || dir[|dir| - 1] == '/' then dir + name else dir + "/" + name
  }

  lemma JoinIsPath(dir: string, name: string)
    requires SlashFree(name)
    ensures Join(dir, name) == PathIn(dir, name)
  {
    if name != "" {
      assert name[..1] == [name[0]] && name[0] in name;
    }
    if dir != "" {
      assert dir[|dir| - 1..] == [dir[|dir| - 1]];
    }
  }

  lemma PathsDiffer(dir: string, name: string, other: string)
    requires name != other
    ensures PathIn(dir, name) != PathIn(dir, other)
  {
    var n := |PathIn(dir, "")|;
    assert PathIn(dir, name)[n..] == name && PathIn(dir, other)[n..] == other;
  }

  /**
   * The same of the names of a directory: a file is yielded once, with its bytes, if its name ends in .tif or .tiff in
   * any case and it could be read, and not otherwise; it goes if it was yielded and the removal happened.
   */
  lemma DirectoryDelivered(w: World, dir: string, names: seq<string>, faults: seq<Fault>, demand: nat, i: nat,
                           before: Bytes)
    requires |faults| == |names| <= demand && BareNames(names) && i < |names|
    requires PathIn(dir, names[i]) in w.files && w.files[PathIn(dir, names[i])] == before
    ensures var (w', items) := Download(w, Listing(dir, names, faults), demand);
      var yielded := TiffNamed(names[i]) && faults[i].read == Ok;
      && YieldedAs(items, names[i]) == (if yielded then [before] else [])
      && (PathIn(dir, names[i]) in w'.files <==> !(yielded && faults[i].remove.Landed()))
  {
    var listing := Listing(dir, names, faults);
    forall k, j | 0 <= k < j < |listing| ensures listing[k].path != listing[j].path {
      JoinIsPath(dir, names[k]);
      JoinIsPath(dir, names[j]);
      PathsDiffer(dir, names[k], names[j]);
    }
    JoinIsPath(dir, names[i]);
    TiffNameSpelled(names[i]);
    Exactly(w, listing, demand, i, listing[i], before);
  }

  /** The first of a listing does not concern a later entry. */
  lemma ElsewhereFirst(w: World, listing: seq<Listed>, i: nat, w1: World, first: seq<Item>)
    requires Distinct(listing) && 0 < i < |listing| && Visit(w, listing[0]) == (w1, first)
    ensures Lookup(w1.files, listing[i].path) == Lookup(w.files, listing[i].path) && |first| <= 1
    ensures YieldedAs(first, listing[i].name) == []
  {
    VisitElsewhere(w, listing[0], listing[i], w1, first);
  }

  lemma DistinctTail(listing: seq<Listed>)
    requires listing != [] && Distinct(listing)
    ensures Unlisted(listing[1..], listing[0]) && Distinct(listing[1..])
  {
  }

  /** A file that is not there is not yielded. */
  lemma {:induction false} MissingNotYielded(w: World, listing: seq<Listed>, demand: nat, i: nat, e: Listed)
    requires Distinct(listing) && i < |listing| && listing[i] == e && e.path !in w.files
    ensures YieldedAs(Download(w, listing, demand).1, e.name) == []
    decreases |listing|
  {
    if demand > 0 {
      var (w1, first) := Visit(w, listing[0]);
      var (w2, rest) := Download(w1, listing[1..], demand - |first|);
      DownloadUnrolls(w, listing, demand, w1, first, w2, rest);
      YieldedAlong(first, rest, e.name);
      DistinctTail(listing);
      if i == 0 {
        Untouched(w1, listing[1..], demand, e);
      } else {
        VisitElsewhere(w, listing[0], e, w1, first);
        MissingNotYielded(w1, listing[1..], demand - |first|, i - 1, e);
      }
    }
  }

  /**
   * The loop is documented as at-most-once. Of two calls drained to the end, whatever each lists and whatever fails,
   * both yield a file if and only if both take it and the first one's removal was lost; the second yields it exactly
   * when it takes it and the first did not both take and remove it.
   */
  lemma DeliveredTwice(w: World, l1: seq<Listed>, d1: nat, i: nat, l2: seq<Listed>, d2: nat, j: nat, before: Bytes)
    requires |l1| <= d1 && |l2| <= d2 && Distinct(l1) && Distinct(l2) && i < |l1| && j < |l2|
    requires l1[i].name == l2[j].name && l1[i].path == l2[j].path && Lookup(w.files, l1[i].path) == Some(before)
    ensures var (w1, items1) := Download(w, l1, d1);
      var items2 := Download(w1, l2, d2).1;
      var once, again := YieldedAs(items1, l1[i].name), YieldedAs(items2, l1[i].name);
      && once in {[], [before]} && again in {[], [before]}
      && (once == again == [before] <==> Taken(l1[i]) && Taken(l2[j]) && l1[i].fault.remove == Lost)
      && (again == [before] <==> Taken(l2[j]) && !(Taken(l1[i]) && l1[i].fault.remove.Landed()))
  {
    Exactly(w, l1, d1, i, l1[i], before);
    var w1 := Download(w, l1, d1).0;
    if Taken(l1[i]) && l1[i].fault.remove.Landed() {
      MissingNotYielded(w1, l2, d2, j, l2[j]);
    } else {
      Exactly(w1, l2, d2, j, l2[j], before);
    }
  }

  // ---------------------------------------------------------------- the order of the items

  /** What is left to the rest of a listing after its front has taken and yielded what it could. */
  ghost predicate Continues(w: World, front: seq<Listed>, rest: seq<Listed>, demand: nat, w': World, items: seq<Item>) {
    var (w1, first) := Download(w, front, demand);
    |first| <= demand &&
    var (w2, second) := Download(w1, rest, demand - |first|);
    w' == w2 && items == first + second
  }

  /** Items come in the order of the listing: first those of its front, then those of its rest as the front left it. */
  lemma {:induction false} DownloadInOrder(w: World, front: seq<Listed>, rest: seq<Listed>, demand: nat)
    ensures var (w', items) := Download(w, front + rest, demand); Continues(w, front, rest, demand, w', items)
    decreases |front|
  {
    if front == [] || demand == 0 {
      assert front == [] ==> front + rest == rest;
      assert [] + Download(w, rest, demand).1 == Download(w, rest, demand).1;
    } else {
      var (w1, one) := Visit(w, front[0]);
      var (w', items) := Download(w1, front[1..] + rest, demand - |one|);
      DownloadInOrder(w1, front[1..], rest, demand - |one|);
      assert (front + rest)[0] == front[0] && (front + rest)[1..] == front[1..] + rest;
      DownloadUnrolls(w, front + rest, demand, w1, one, w', items);
      OneInFront(w, front, rest, demand, w1, one, w', items);
    }
  }

  lemma OneInFront(w: World, front: seq<Listed>, rest: seq<Listed>, demand: nat, w1: World, one: seq<Item>, w': World,
                   items: seq<Item>)
    requires front != [] && demand > 0 && Visit(w, front[0]) == (w1, one)
    requires Continues(w1, front[1..], rest, demand - |one|, w', items)
    ensures Continues(w, front, rest, demand, w', one + items)
  {
    var (w2, more) := Download(w1, front[1..], demand - |one|);
    DownloadUnrolls(w, front, demand, w1, one, w2, more);
    var second := Download(w2, rest, demand - |one| - |more|).1;
    assert one + (more + second) == (one + more) + second;
  }
}
