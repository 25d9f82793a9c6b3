/** Fixed constants of the Gutkin et al. (2016) photoionisation tables. */
module Gutkin {

  /** Number of emission lines stored per table row. */
  const NEmLine: nat := 18
  /** Number of ionisation-parameter bins. */
  const NU: nat := 7
  /** Number of metallicities of the full axis (one table file each). */
  const NZMet: nat := 14
  /** Number of metallicities of the reduced axis. */
  const NZMetReduced: nat := 4

  /** The metallicity strings naming the table files, in file order. */
  const ZmetStr: seq<string> :=
    ["0001", "0002", "0005", "001", "002", "004", "006", "008", "010", "014", "017", "020", "030", "040"]

  /** The canonical log U bins. */
  const LogUBins: seq<real> := [-4.0, -3.5, -3.0, -2.5, -2.0, -1.5, -1.0]

  /** The metallicities of the reduced axis. */
  const ZmetsReduced: seq<real> := [0.0001, 0.002, 0.014, 0.030]

  /** The file index k whose rows fill each slot of the reduced axis. */
  const ReducedSource: seq<nat> := [0, 4, 9, 12]

  /** Every metallicity string has at least three characters, so none is padded. */
  lemma ZmetStrLong(k: nat)
    requires k < NZMet
    ensures |ZmetStr[k]| >= 3
  {
    if k < 7 {
      assert k == 0 || k == 1 || k == 2 || k == 3 || k == 4 || k == 5 || k == 6;
    } else {
      assert k == 7 || k == 8 || k == 9 || k == 10 || k == 11 || k == 12 || k == 13;
    }
  }

  /** The photoionisation model name the grid loader passes when naming files. */
  const GridModel: string := "gutkin"

  predicate IsDigits(s: string)
  {
    forall i :: 0 <= i < |s| ==> '0' <= s[i] <= '9'
  }

  /** The integer a digit string spells. */
  function DigitsValue(s: string): nat
    requires IsDigits(s)
  {
    if s == [] then 0 else DigitsValue(s[..|s| - 1]) * 10 + (s[|s| - 1] as int - '0' as int)
  }

  function Pow10(n: nat): (p: nat)
    ensures p >= 1
  {
    if n == 0 then 1 else 10 * Pow10(n - 1)
  }

  /** The number `float('0.' + s)` reads. */
  function DecimalFraction(s: string): real
    requires IsDigits(s)
  {
    DigitsValue(s) as real / Pow10(|s|) as real
  }

  /** Slot i of the reduced axis is the metallicity of file ReducedSource[i]. */
  lemma ReducedAxisMatchesFiles()
    ensures forall i :: 0 <= i < NZMetReduced ==>
              ReducedSource[i] < NZMet && IsDigits(ZmetStr[ReducedSource[i]]) &&
              DecimalFraction(ZmetStr[ReducedSource[i]]) == ZmetsReduced[i]
  {
    forall i | 0 <= i < NZMetReduced
      ensures ReducedSource[i] < NZMet && IsDigits(ZmetStr[ReducedSource[i]]) &&
              DecimalFraction(ZmetStr[ReducedSource[i]]) == ZmetsReduced[i]
    {
      if i == 0 {
        assert ZmetStr[ReducedSource[i]] == "0001";
        Value0001();
      } else if i == 1 {
        assert ZmetStr[ReducedSource[i]] == "002";
        Value002();
      } else if i == 2 {
        assert ZmetStr[ReducedSource[i]] == "014";
        Value014();
      } else {
        assert ZmetStr[ReducedSource[i]] == "030";
        Value030();
      }
    }
  }

  lemma Value0001()
    ensures IsDigits("0001") && DecimalFraction("0001") == 0.0001
  {
    assert "0001"[..3] == "000" && "000"[..2] == "00" && "00"[..1] == "0" && "0"[..0] == "";
    assert Pow10(4) == 10000;
  }

  lemma Value002()
    ensures IsDigits("002") && DecimalFraction("002") == 0.002
  {
    assert "002"[..2] == "00" && "00"[..1] == "0" && "0"[..0] == "";
    assert Pow10(3) == 1000;
  }

  lemma Value014()
    ensures IsDigits("014") && DecimalFraction("014") == 0.014
  {
    assert "014"[..2] == "01" && "01"[..1] == "0" && "0"[..0] == "";
    assert Pow10(3) == 1000;
  }

  lemma Value030()
    ensures IsDigits("030") && DecimalFraction("030") == 0.030
  {
    assert "030"[..2] == "03" && "03"[..1] == "0" && "0"[..0] == "";
    assert Pow10(3) == 1000;
  }
}
