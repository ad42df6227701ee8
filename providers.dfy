/** The string rules every data provider shares (src/data/providers/base.py): the exchange
    suffix of a stock code, the YYYYMMDD date form and the required-column check. */
module Providers {
  import opened Wrappers
  import opened Types
  import Text

  /** The exchange suffix an undotted code gets from its first digit, if any. */
  function MarketSuffix(symbol: string): Option<string>
  {
    if |symbol| == 0 then None
    else if symbol[0] == '6' then Some(".SH")
    else if symbol[0] == '0' || symbol[0] == '3' then Some(".SZ")
    else if symbol[0] == '4' || symbol[0] == '8' then Some(".BJ")
    else None
  }

  /** `normalize_symbol`: a code with a '.' is uppercased; an undotted code gets the suffix of
      its market, and a code whose market cannot be told is a ValueError. */
  function NormalizeSymbol(symbol: string): (r: Result<string, Error>)
    ensures '.' in symbol ==> r == Ok(Text.Upper(symbol))
    ensures '.' !in symbol && |symbol| > 0 && symbol[0] == '6' ==> r == Ok(symbol + ".SH")
    ensures '.' !in symbol && |symbol| > 0 && (symbol[0] == '0' || symbol[0] == '3') ==> r == Ok(symbol + ".SZ")
    ensures '.' !in symbol && |symbol| > 0 && (symbol[0] == '4' || symbol[0] == '8') ==> r == Ok(symbol + ".BJ")
    ensures r.Err? <==> '.' !in symbol && (|symbol| == 0 || symbol[0] !in {'6', '0', '3', '4', '8'})
    ensures r.Err? ==> r.error == ValueFailure
    ensures r.Ok? ==> '.' in r.value && |r.value| >= |symbol|
  {
    if '.' in symbol then
      var u := Text.Upper(symbol);
      assert exists i :: 0 <= i < |symbol| && symbol[i] == '.' && u[i] == '.';
      Ok(u)
    else
      match MarketSuffix(symbol)
      case Some(suffix) =>
        assert (symbol + suffix)[|symbol|] == '.';
        Ok(symbol + suffix)
      case None => Err(ValueFailure)
  }

  predicate NoLowercase(s: string)
  {
    forall i :: 0 <= i < |s| ==> !Text.IsLower(s[i])
  }

  /** Uppercasing a string without lower-case letters leaves it as it is. */
  lemma UpperOfNoLowercase(s: string)
    requires NoLowercase(s)
    ensures Text.Upper(s) == s
  {
  }

  /** A normalised code for an input without lower-case letters, which covers every all-digit
      code, normalises to itself. */
  lemma NormalizeSymbolIsIdempotent(symbol: string)
    requires NoLowercase(symbol)
    requires NormalizeSymbol(symbol).Ok?
    ensures NormalizeSymbol(NormalizeSymbol(symbol).value) == NormalizeSymbol(symbol)
  {
    var n := NormalizeSymbol(symbol).value;
    if '.' in symbol {
      UpperOfNoLowercase(symbol);
    } else {
      var suffix := MarketSuffix(symbol).value;
      assert n == symbol + suffix;
      assert NoLowercase(n) by {
        forall i | 0 <= i < |n|
          ensures !Text.IsLower(n[i])
        {
          if i >= |symbol| {
            assert n[i] == suffix[i - |symbol|];
          }
        }
      }
      UpperOfNoLowercase(n);
    }
  }

  /** A lower-case undotted code does not normalise to a fixed point: "6ab" gives "6ab.SH",
      which normalises to "6AB.SH". */
  lemma LowercaseCodeIsNotIdempotent()
    ensures NormalizeSymbol("6ab") == Ok("6ab.SH")
    ensures NormalizeSymbol("6ab.SH") == Ok("6AB.SH")
  {
    assert "6ab"[0] == '6' && "6ab"[1] != '.' && "6ab"[2] != '.';
    assert '.' !in "6ab";
    assert MarketSuffix("6ab") == Some(".SH");
    assert "6ab" + ".SH" == "6ab.SH";
    assert "6ab.SH"[3] == '.';
    var u := Text.Upper("6ab.SH");
    assert u[1] == 'A' && u[2] == 'B';
    assert u == "6AB.SH";
  }

  /** `normalize_date`: every '-' removed from a date that contains one. */
  function NormalizeDate(date: string): (r: string)
    ensures '-' !in r
    ensures '-' !in date ==> r == date
  {
    RemoveDropsEvery(date);
    if '-' in date then Text.Remove(date, '-') else date
  }

  /** `Text.Remove` leaves no occurrence of the removed character. */
  lemma {:induction false} RemoveDropsEvery(s: string)
    ensures '-' !in Text.Remove(s, '-')
  {
    if |s| > 0 {
      RemoveDropsEvery(s[1..]);
    }
  }

  /** Removing '-' keeps every other character (the order is kept too: see RemoveAppend). */
  lemma {:induction false} RemoveKeepsTheRest(s: string)
    ensures |Text.Remove(s, '-')| <= |s|
    ensures '-' !in s ==> Text.Remove(s, '-') == s
    ensures forall c :: c != '-' ==> (c in s <==> c in Text.Remove(s, '-'))
  {
    if |s| > 0 {
      RemoveKeepsTheRest(s[1..]);
      assert s == [s[0]] + s[1..];
    }
  }

  /** Removal works piece by piece, so the kept characters stay in their order. */
  lemma {:induction false} RemoveAppend(a: string, b: string)
    ensures Text.Remove(a + b, '-') == Text.Remove(a, '-') + Text.Remove(b, '-')
  {
    if |a| == 0 {
      assert a + b == b;
    } else {
      assert (a + b)[1..] == a[1..] + b;
      RemoveAppend(a[1..], b);
    }
  }

  /** A "YYYY-MM-DD" date becomes "YYYYMMDD": the dashes go and the three parts are kept. */
  lemma NormalizeDateOfDashed(y: string, m: string, d: string)
    requires '-' !in y && '-' !in m && '-' !in d
    ensures NormalizeDate(y + "-" + m + "-" + d) == y + m + d
  {
    var a := y + "-";
    var b := a + m;
    var c := b + "-";
    assert "-"[1..] == "";
    assert Text.Remove("-", '-') == "";
    RemoveKeepsTheRest(y);
    RemoveKeepsTheRest(m);
    RemoveKeepsTheRest(d);
    RemoveAppend(y, "-");
    assert Text.Remove(a, '-') == y;
    RemoveAppend(a, m);
    assert Text.Remove(b, '-') == y + m;
    RemoveAppend(b, "-");
    assert Text.Remove(c, '-') == y + m;
    RemoveAppend(c, d);
    assert Text.Remove(c + d, '-') == y + m + d;
    assert c[|y|] == '-';
  }

  /** Normalising a date twice gives the same result as once. */
  lemma NormalizeDateIsIdempotent(date: string)
    ensures NormalizeDate(NormalizeDate(date)) == NormalizeDate(date)
  {
  }

  /** The required columns a frame lacks. */
  function Missing(columns: set<string>, required: seq<string>): (m: set<string>)
    ensures forall c :: c in m <==> c in required && c !in columns
  {
    set c | c in required && c !in columns
  }

  /** `validate_dataframe`: a ValueError exactly when some required column is absent. */
  function ValidateDataframe(columns: set<string>, required: seq<string>): (r: Option<Error>)
    ensures r.Some? <==> exists i :: 0 <= i < |required| && required[i] !in columns
    ensures r.Some? ==> r.value == ValueFailure
  {
    var missing := Missing(columns, required);
    if missing != {} then
      var c :| c in missing;
      assert exists i :: 0 <= i < |required| && required[i] == c;
      Some(ValueFailure)
    else
      assert forall i :: 0 <= i < |required| ==> required[i] !in missing;
      None
  }

  /** Adding columns never makes a valid frame invalid. */
  lemma ValidateIsMonotone(columns: set<string>, more: set<string>, required: seq<string>)
    requires columns <= more
    requires ValidateDataframe(columns, required).None?
    ensures ValidateDataframe(more, required).None?
  {
  }
}
