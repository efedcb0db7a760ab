/**
 * What the employee and the client forms check first, in the same order
 * (src/features/administracion/Empleados/Empleados.tsx and
 * src/features/administracion/Clientes/Clientes.tsx): a first name, a
 * last name and an e-mail address, the trimmed address matching the
 * pattern /^[^\s@]+@[^\s@]+\.[^\s@]+$/.
 */
module Email {
  import opened Common
  import opened Text

  /** Every character in s[a..b] is in the class [^\s@]. */
  predicate Clase(s: string, a: int, b: int)
  {
    forall m :: a <= m < b && 0 <= m < |s| ==> s[m] != '@' && !IsWhitespace(s[m])
  }

  /** The pattern itself: the '@' at i and the '.' at j split the string
      into three non-empty runs of the class. */
  predicate CumplePatron(s: string)
  {
    exists i, j :: 0 < i && i + 1 < j && j + 1 < |s| && s[i] == '@' && s[j] == '.'
                   && Clase(s, 0, i) && Clase(s, i + 1, j) && Clase(s, j + 1, |s|)
  }

  /** The same language, described by what an address must have: no white
      space, exactly one '@' with something before it, and after it a '.'
      with something on both sides. */
  predicate Descripcion(s: string)
  {
    (forall m :: 0 <= m < |s| ==> !IsWhitespace(s[m]))
    && exists i :: 0 < i < |s| && s[i] == '@'
         && (forall m :: 0 <= m < |s| && m != i ==> s[m] != '@')
         && (exists j :: i + 1 < j < |s| - 1 && s[j] == '.')
  }

  /** The pattern accepts exactly the strings the description admits. */
  lemma PatronSii(s: string)
    ensures CumplePatron(s) <==> Descripcion(s)
  {
    if CumplePatron(s) {
      PatronDescrito(s);
    }
    if Descripcion(s) {
      DescripcionCumple(s);
    }
  }

  lemma PatronDescrito(s: string)
    requires CumplePatron(s)
    ensures Descripcion(s)
  {
    var i, j :| 0 < i && i + 1 < j && j + 1 < |s| && s[i] == '@' && s[j] == '.'
               && Clase(s, 0, i) && Clase(s, i + 1, j) && Clase(s, j + 1, |s|);
    assert !IsWhitespace('@') && !IsWhitespace('.');
    assert forall m :: 0 <= m < |s| && m != i ==> s[m] != '@';
    assert forall m :: 0 <= m < |s| ==> !IsWhitespace(s[m]);
    assert i + 1 < j < |s| - 1 && s[j] == '.';
  }

  lemma DescripcionCumple(s: string)
    requires Descripcion(s)
    ensures CumplePatron(s)
  {
    var i :| 0 < i < |s| && s[i] == '@'
             && (forall m :: 0 <= m < |s| && m != i ==> s[m] != '@')
             && (exists j :: i + 1 < j < |s| - 1 && s[j] == '.');
    var j :| i + 1 < j < |s| - 1 && s[j] == '.';
    assert Clase(s, 0, i) && Clase(s, i + 1, j) && Clase(s, j + 1, |s|);
  }

  /** An address the pattern accepts is never blank. */
  lemma PatronNoEsBlanco(s: string)
    requires CumplePatron(s)
    ensures |s| >= 5 && !IsBlank(s)
  {
    var i, j :| 0 < i && i + 1 < j && j + 1 < |s| && s[i] == '@' && s[j] == '.'
               && Clase(s, 0, i) && Clase(s, i + 1, j) && Clase(s, j + 1, |s|);
    assert !IsWhitespace(s[i]);
    assert !AllWhitespace(s);
  }

  /** The checks both validateForm functions start with; the first that
      fails gives the error shown. */
  function ValidarPersona(nombre: string, apellido: string, email: string): (r: Option<string>)
    ensures IsBlank(nombre) ==> r == Some("El nombre es obligatorio")
    ensures !IsBlank(nombre) && IsBlank(apellido) ==> r == Some("El apellido es obligatorio")
    ensures !IsBlank(nombre) && !IsBlank(apellido) && IsBlank(email) ==> r == Some("El email es obligatorio")
    ensures !IsBlank(nombre) && !IsBlank(apellido) && !IsBlank(email) && !Descripcion(Trim(email)) ==>
              r == Some("El email no es válido")
    ensures r.None? <==> !IsBlank(nombre) && !IsBlank(apellido) && Descripcion(Trim(email))
  {
    if Trim(nombre) == [] then Some("El nombre es obligatorio")
    else if Trim(apellido) == [] then Some("El apellido es obligatorio")
    else if Trim(email) == [] then Some("El email es obligatorio")
    else if !CumplePatron(Trim(email)) then
      (PatronSii(Trim(email)); Some("El email no es válido"))
    else (PatronSii(Trim(email)); None)
  }
}
