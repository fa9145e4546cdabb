/** The header block of a request: what the loop that fills it amounts to. */
module Headers {
  import opened Prelude
  import opened Glue
  import opened GlueObject

  /** No later header has the same name. */
  ghost predicate LastOfItsName(headers: seq<Header>, i: nat)
    requires i < |headers|
  {
    forall j :: i < j < |headers| ==> headers[j].0 != headers[i].0
  }

  ghost predicate Named(headers: seq<Header>, name: string)
  {
    exists i :: 0 <= i < |headers| && headers[i].0 == name
  }

  lemma {:induction false} RefusalNeedsAnEmptyName(headers: seq<Header>)
    requires BuildBlock(headers).None?
    ensures Named(headers, "")
  {
    var n := |headers| - 1;
    if headers[n].0 != "" { RefusalNeedsAnEmptyName(headers[..n]); }
  }

  lemma {:induction false} BlockNames(headers: seq<Header>, name: string)
    requires BuildBlock(headers).Some?
    ensures name in BuildBlock(headers).value <==> Named(headers, name)
  {
    if headers != [] {
      var n := |headers| - 1;
      BlockNames(headers[..n], name);
      assert Named(headers, name) <==> Named(headers[..n], name) || headers[n].0 == name;
    }
  }

  lemma {:induction false} LastValueWins(headers: seq<Header>, i: nat)
    requires BuildBlock(headers).Some? && i < |headers| && LastOfItsName(headers, i)
    ensures headers[i].0 in BuildBlock(headers).value && BuildBlock(headers).value[headers[i].0] == headers[i].1
  {
    var n := |headers| - 1;
    if i < n {
      assert forall j :: i < j < n ==> headers[..n][j] == headers[j];
      LastValueWins(headers[..n], i);
    }
  }

  /** The block exists exactly when no name is empty; then it has exactly the names of the list, each
      with the value of its last occurrence. */
  lemma BlockHoldsTheLast(headers: seq<Header>)
    ensures BuildBlock(headers).None? <==> Named(headers, "")
    ensures BuildBlock(headers).Some? ==> forall name :: name in BuildBlock(headers).value <==> Named(headers, name)
    ensures BuildBlock(headers).Some? ==> forall i :: 0 <= i < |headers| && LastOfItsName(headers, i) ==>
      headers[i].0 in BuildBlock(headers).value && BuildBlock(headers).value[headers[i].0] == headers[i].1
  {
    if BuildBlock(headers).None? {
      RefusalNeedsAnEmptyName(headers);
    } else {
      forall name { BlockNames(headers, name); }
      forall i | 0 <= i < |headers| && LastOfItsName(headers, i) { LastValueWins(headers, i); }
    }
    if Named(headers, "") {
      var i :| 0 <= i < |headers| && headers[i].0 == "";
      EmptyNameSpoils(headers, i);
    }
  }

  predicate IsPseudo(name: string) { name != "" && name[0] == ':' }

  /** A CONNECT carries every ordinary header of the caller. */
  lemma ConnectCarriesHeaders(headers: seq<Header>, serverName: string, path: string, i: nat)
    requires BuildBlock(headers).Some? && i < |headers| && LastOfItsName(headers, i) && !IsPseudo(headers[i].0)
    ensures var block := ConnectBlock(BuildBlock(headers).value, serverName, path);
      headers[i].0 in block && block[headers[i].0] == headers[i].1
  {
    LastValueWins(headers, i);
    PseudoHeadersOnly(BuildBlock(headers).value, serverName, path, headers[i].0);
  }

  lemma PseudoHeadersOnly(block: map<string, string>, serverName: string, path: string, name: string)
    requires name in block && !IsPseudo(name)
    ensures var block' := ConnectBlock(block, serverName, path); name in block' && block'[name] == block[name]
  {
    assert IsPseudo(":scheme") && IsPseudo(":authority") && IsPseudo(":path") && IsPseudo(":method")
        && IsPseudo(":protocol");
  }
}
