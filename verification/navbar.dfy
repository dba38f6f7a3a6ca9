/** The navigation bar (`Navbar`): which links a visitor sees, chosen from the session's
    role after lowercasing it, the brand link's target, and the logout button. */
module Navbar {
  import opened Common
  import opened Domain
  import opened Auth

  /** `toLowerCase` on ASCII letters; other characters are left alone. */
  function LowerChar(c: char): (r: char)
    ensures 'A' <= c <= 'Z' ==> r as int == c as int + 32
    ensures !('A' <= c <= 'Z') ==> r == c
    ensures !('A' <= r <= 'Z')
  {
    if 'A' <= c <= 'Z' then (c as int + 32) as char else c
  }

  function ToLower(s: string): (r: string)
    ensures |r| == |s|
    ensures forall i :: 0 <= i < |s| ==> r[i] == LowerChar(s[i])
  {
    seq(|s|, i requires 0 <= i < |s| => LowerChar(s[i]))
  }

  /** Lowercasing twice is lowercasing once. */
  lemma ToLowerIdempotent(s: string)
    ensures ToLower(ToLower(s)) == ToLower(s)
  {
    var once := ToLower(s);
    forall i | 0 <= i < |s| ensures LowerChar(once[i]) == once[i] {
    }
  }

  /** `user?.role?.toLowerCase()` */
  function RoleKey(user: Option<Identity>): (r: Option<string>)
    ensures r.Some? <==> user.Some? && user.value.role.Some?
    ensures r.Some? ==> r.value == ToLower(user.value.role.value)
  {
    if user.Some? && user.value.role.Some? then Some(ToLower(user.value.role.value)) else None
  }

  datatype NavItem = Link(to: string, text: string) | LogoutButton

  const AdminLinks: seq<NavItem> := [
    Link("/", "Dashboard"), Link("/products", "Gérer Produits"), Link("/suppliers", "Gérer Fournisseurs"),
    Link("/categories", "Gérer Catégories"), Link("/orders", "Commandes"), Link("/deliveries", "Livraisons"),
    Link("/users", "Utilisateurs"), Link("/reports", "Rapports")]
  const SupplierLinks: seq<NavItem> := [
    Link("/products", "Mes Produits"), Link("/orders", "Commandes Reçues"), Link("/deliveries", "Livraisons"),
    Link("/stats", "Statistiques"), Link("/profile", "Profil")]
  const ClientLinks: seq<NavItem> := [
    Link("/products-public", "Catalogue"), Link("/cart", "Panier 🛒"), Link("/orders", "Mes Commandes"),
    Link("/deliveries", "Suivi Livraison"), Link("/profile", "Profil")]
  const GuestLinks: seq<NavItem> := [
    Link("/products-public", "Produits"), Link("/register", "Inscription"), Link("/login", "Connexion")]

  /** `authLinks`: three independent conditionals, then the logout button. */
  function AuthLinks(role: Option<string>): (r: seq<NavItem>)
    ensures r != [] && r[|r| - 1] == LogoutButton
    ensures role == Some("admin") ==> r == AdminLinks + [LogoutButton]
    ensures role == Some("fournisseur") ==> r == SupplierLinks + [LogoutButton]
    ensures role == Some("client") ==> r == ClientLinks + [LogoutButton]
    ensures role !in {Some("admin"), Some("fournisseur"), Some("client")} ==> r == [LogoutButton]
  {
    (if role == Some("admin") then AdminLinks else [])
    + (if role == Some("fournisseur") then SupplierLinks else [])
    + (if role == Some("client") then ClientLinks else [])
    + [LogoutButton]
  }

  /** `isAuthenticated ? authLinks : guestLinks` */
  function NavItems(isAuthenticated: bool, user: Option<Identity>): (r: seq<NavItem>)
    ensures !isAuthenticated ==> r == GuestLinks
    ensures isAuthenticated ==> r == AuthLinks(RoleKey(user))
    ensures isAuthenticated ==> LogoutButton in r
  {
    if isAuthenticated then AuthLinks(RoleKey(user)) else GuestLinks
  }

  /** Role comparison ignores case: 'Admin' gets the administrator's links; a session
      without a user or a role gets only the logout button. */
  lemma RoleCaseIgnored(user: Identity)
    requires user.role == Some("Admin")
    ensures NavItems(true, Some(user)) == AdminLinks + [LogoutButton]
    ensures NavItems(true, Some(user.(role := None))) == [LogoutButton]
    ensures NavItems(true, None) == [LogoutButton]
  {
    assert ToLower("Admin") == "admin";
  }

  /** Any spelling of a known role gets that role's links, and a role that lowercases to
      none of the three gets only the logout button. */
  lemma RoleSpellings(user: Identity)
    ensures NavItems(true, Some(user.(role := Some("CLIENT")))) == ClientLinks + [LogoutButton]
    ensures NavItems(true, Some(user.(role := Some("Fournisseur")))) == SupplierLinks + [LogoutButton]
    ensures NavItems(true, Some(user.(role := Some("livreur")))) == [LogoutButton]
  {
    assert ToLower("CLIENT") == "client";
    assert ToLower("Fournisseur") == "fournisseur";
    assert ToLower("livreur") == "livreur";
  }

  /** For a signed-in visitor with a role, the links are those of the lowercased role. */
  lemma {:induction false} SignedInLinks(user: Identity, role: string)
    requires user.role == Some(role)
    ensures ToLower(role) == "admin" ==> NavItems(true, Some(user)) == AdminLinks + [LogoutButton]
    ensures ToLower(role) == "fournisseur" ==> NavItems(true, Some(user)) == SupplierLinks + [LogoutButton]
    ensures ToLower(role) == "client" ==> NavItems(true, Some(user)) == ClientLinks + [LogoutButton]
    ensures ToLower(role) !in {"admin", "fournisseur", "client"} ==> NavItems(true, Some(user)) == [LogoutButton]
  {
  }

  /** An authenticated visitor sees at most one of the three role link sets. */
  lemma AtMostOneLinkSet(isAuthenticated: bool, user: Option<Identity>)
    requires isAuthenticated
    ensures var r := NavItems(isAuthenticated, user);
      r == [LogoutButton] || r == AdminLinks + [LogoutButton] ||
      r == SupplierLinks + [LogoutButton] || r == ClientLinks + [LogoutButton]
  {
  }

  /** The brand link: home when signed in, the public catalogue otherwise. */
  function BrandTarget(isAuthenticated: bool): (r: string)
    ensures isAuthenticated <==> r == "/"
    ensures !isAuthenticated ==> r == "/products-public"
  {
    if isAuthenticated then "/" else "/products-public"
  }

  /** `handleLogout`: log out, then go to the login page. */
  method HandleLogout(session: Session) returns (target: string)
    modifies session
    ensures session.Valid() && session.State() == LoggedOut(old(session.State()))
    ensures target == "/login"
  {
    session.Logout();
    target := "/login";
  }
}
