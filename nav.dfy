/** Which navigation link is highlighted (src/components/nav-header.tsx, lines 9-12 and 25-28). */
module Nav {
  import opened Text

  const InvoicesHref: string := "/"
  const ClientsHref: string := "/clients"

  /** `isActive`: the home link also covers every `/invoices` path; any other link is active on
      every path that starts with its href. */
  function IsActive(href: string, pathname: string): (r: bool)
    ensures href == "/" ==> (r <==> pathname == "/" || (9 <= |pathname| && pathname[..9] == "/invoices"))
    ensures href != "/" ==> (r <==> |href| <= |pathname| && pathname[..|href|] == href)
  {
    if href == "/" then pathname == "/" || StartsWith(pathname, "/invoices")
    else StartsWith(pathname, href)
  }

  /** The two links are never highlighted together. */
  lemma AtMostOneActive(pathname: string)
    ensures !(IsActive(InvoicesHref, pathname) && IsActive(ClientsHref, pathname))
  {
    if IsActive(ClientsHref, pathname) {
      assert pathname[..8] == "/clients";
      assert pathname[1] == 'c';
    }
  }

  /** An invoice page lights up Invoices only, the client list Clients only, and matching is by
      prefix, so "/clientsX" also lights up Clients. */
  lemma ActiveExamples()
    ensures IsActive(InvoicesHref, "/invoices/123") && !IsActive(ClientsHref, "/invoices/123")
    ensures IsActive(ClientsHref, "/clients") && !IsActive(InvoicesHref, "/clients")
    ensures IsActive(ClientsHref, "/clientsX")
    ensures IsActive(InvoicesHref, "/") && !IsActive(ClientsHref, "/")
  {
    assert "/invoices/123"[..9] == "/invoices";
    assert "/clientsX"[..8] == "/clients";
    AtMostOneActive("/invoices/123");
    AtMostOneActive("/clients");
  }
}
