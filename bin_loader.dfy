/**
 * The in-memory BIN table: issuer codes and BIN rows read from the card
 * company CSV exports, and the lookup used when a card is registered.
 */
module BinLoading {
  import opened Common
  import opened CardBrands
  import opened CardTypes
  import opened BinInfos

  /** "개인" (personal) in the personal/corporate column. */
  const PERSONAL: string := "\U{AC1C}\U{C778}"

  /** The ASCII digits of `s`, in order: `s.replaceAll("[^0-9]", "")`. */
  function KeepDigits(s: string): (r: string)
    ensures AllAsciiDigits(r) && |r| <= |s|
    ensures AllAsciiDigits(s) ==> r == s
  {
    if |s| == 0 then ""
    else if IsAsciiDigit(s[|s| - 1]) then KeepDigits(s[..|s| - 1]) + [s[|s| - 1]]
    else KeepDigits(s[..|s| - 1])
  }

  /** The canonical form of a BIN: its digits, left-padded with '0' to at least six. */
  function Normalized(bin: string): (r: string)
    ensures AllAsciiDigits(r)
    ensures |r| == if |KeepDigits(bin)| >= 6 then |KeepDigits(bin)| else 6
  {
    var d := KeepDigits(bin);
    if |d| >= 6 then d else Repeat('0', 6 - |d|) + d
  }

  /** Normalizing twice changes nothing. */
  lemma NormalizedIdempotent(bin: string)
    ensures Normalized(Normalized(bin)) == Normalized(bin)
  {
    var n := Normalized(bin);
    assert KeepDigits(n) == n;
  }

  /** A digit string of length six or more is already normal. */
  lemma NormalizedKeepsLongDigits(bin: string)
    requires AllAsciiDigits(bin) && |bin| >= 6
    ensures Normalized(bin) == bin
  {
  }

  /** `key` is an eight-digit BIN that extends the six-digit `bin`. */
  predicate ExtendsBin(key: string, bin: string)
  {
    |key| == 8 && bin <= key
  }

  /** A line of the issuer-code file names an issuer when its first two fields have text after trimming. */
  predicate IsIssuerLine(parts: seq<string>)
  {
    |parts| >= 2 && Trim(parts[0]) != "" && Trim(parts[1]) != ""
  }

  /** The BinInfo a row of the BIN file describes. */
  function RowInfo(issuerCodes: map<string, string>, parts: seq<string>): BinInfo
    requires |parts| >= 8
  {
    var code := Trim(parts[1]);
    BinInfo(if code in issuerCodes then issuerCodes[code] else code,
            CardBrands.FromCode(Trim(parts[5])), CardTypes.FromCode(Trim(parts[6])),
            Trim(parts[4]) == PERSONAL,
            Some(if |parts| > 8 then Trim(parts[8]) else ""))
  }

  /** Store a row under its BIN; an eight-digit BIN also claims its six-digit prefix when free. */
  function PutRow(m: map<string, BinInfo>, bin: string, info: BinInfo): map<string, BinInfo>
  {
    if |bin| == 8 && bin[..6] !in m then m[bin := info][bin[..6] := info] else m[bin := info]
  }

  /** The BIN table after one row of the BIN file. */
  function WithBinLine(m: map<string, BinInfo>, issuerCodes: map<string, string>, line: string): map<string, BinInfo>
  {
    var parts := SplitComma(line);
    if |parts| < 8 then m else PutRow(m, Normalized(Trim(parts[2])), RowInfo(issuerCodes, parts))
  }

  /** What getBinInfo may answer for `bin` over table `m`: the row of the normalized BIN;
    * failing that, for a six-digit BIN, the row of some eight-digit key extending it; else None. */
  predicate IsBinInfoFor(m: map<string, BinInfo>, bin: string, r: Option<BinInfo>)
  {
    var b := Normalized(bin);
    && (b in m ==> r == Some(m[b]))
    && (b !in m && r.Some? ==> |b| == 6 && exists key :: key in m && ExtendsBin(key, b) && r.value == m[key])
    && (b !in m && r.None? ==> |b| != 6 || forall key :: key in m ==> !ExtendsBin(key, b))
  }

  class BinLoader {
    var issuerCodeMap: map<string, string>
    var binInfoMap: map<string, BinInfo>

    constructor()
      ensures issuerCodeMap == map[] && binInfoMap == map[]
    {
      issuerCodeMap := map[];
      binInfoMap := map[];
    }

    /** normalizeBin: keep the digits, then pad on the left with '0' until six long. */
    static method NormalizeBin(bin: string) returns (r: string)
      ensures r == Normalized(bin)
    {
      var digits := KeepDigits(bin);
      r := digits;
      ghost var k := 0;
      while |r| < 6
        invariant r == Repeat('0', k) + digits
        invariant |digits| >= 6 ==> k == 0
        invariant |digits| < 6 ==> k <= 6 - |digits|
        decreases 6 - |r|
      {
        assert "0" + Repeat('0', k) == Repeat('0', k + 1);
        r, k := "0" + r, k + 1;
      }
    }

    /** The per-line rule of the issuer-code file: map the trimmed code to the trimmed name. */
    method LoadIssuerLine(line: string)
      modifies this`issuerCodeMap
      ensures var parts := SplitComma(line);
        issuerCodeMap == if IsIssuerLine(parts) then old(issuerCodeMap)[Trim(parts[0]) := Trim(parts[1])]
                         else old(issuerCodeMap)
    {
      var parts := SplitComma(line);
      if |parts| >= 2 && Trim(parts[0]) != "" && Trim(parts[1]) != "" {
        issuerCodeMap := issuerCodeMap[Trim(parts[0]) := Trim(parts[1])];
      }
    }

    /** processBinLine: a row with eight or more fields maps its normalized BIN to the row's
      * BinInfo; an eight-digit BIN also claims its six-digit prefix unless that key is taken. */
    method ProcessBinLine(line: string)
      modifies this`binInfoMap
      ensures binInfoMap == WithBinLine(old(binInfoMap), issuerCodeMap, line)
    {
      var parts := SplitComma(line);
      if |parts| < 8 {
        return;
      }
      var bin := NormalizeBin(Trim(parts[2]));
      var info := RowInfo(issuerCodeMap, parts);
      StoreRow(bin, info);
    }

    /** put of the row, then putIfAbsent under the six-digit prefix of an eight-digit BIN. */
    method StoreRow(bin: string, info: BinInfo)
      modifies this`binInfoMap
      ensures binInfoMap == PutRow(old(binInfoMap), bin, info)
    {
      binInfoMap := binInfoMap[bin := info];
      if |bin| == 8 {
        var six := bin[..6];
        assert six != bin;
        if six !in binInfoMap {
          binInfoMap := binInfoMap[six := info];
        }
      }
    }

    /** getBinInfo: the row of the normalized BIN; failing that, for a six-digit BIN, the row of
      * some eight-digit key extending it (whichever the map's iteration meets first); else None. */
    method GetBinInfo(bin: string) returns (r: Option<BinInfo>)
      ensures IsBinInfoFor(binInfoMap, bin, r)
    {
      var b := NormalizeBin(bin);
      if b in binInfoMap {
        return Some(binInfoMap[b]);
      }
      if |b| == 6 {
        var keys := binInfoMap.Keys;
        while keys != {}
          invariant keys <= binInfoMap.Keys
          invariant forall key :: key in binInfoMap && key !in keys ==> !ExtendsBin(key, b)
          decreases |keys|
        {
          var key :| key in keys;
          if |key| == 8 && b <= key {
            return Some(binInfoMap[key]);
          }
          keys := keys - {key};
        }
      }
      return None;
    }
  }

  /** The row is stored under its BIN; an eight-digit BIN's six-digit prefix keeps an earlier
    * row and otherwise gets this one; every other key keeps its entry. */
  lemma PutRowEffect(m: map<string, BinInfo>, bin: string, info: BinInfo)
    ensures var m' := PutRow(m, bin, info);
      m'.Keys == m.Keys + {bin} + (if |bin| == 8 && bin[..6] !in m then {bin[..6]} else {})
      && m'[bin] == info
      && (|bin| == 8 ==> m'[bin[..6]] == if bin[..6] in m && bin[..6] != bin then m[bin[..6]] else info)
      && forall k :: k in m && k != bin && !(|bin| == 8 && k == bin[..6]) ==> m'[k] == m[k]
  {
  }

  /** Every key of the table is a normalized BIN: digits only, at least six long. */
  ghost predicate KeysNormal(m: map<string, BinInfo>)
  {
    forall k :: k in m ==> AllAsciiDigits(k) && |k| >= 6
  }

  lemma PutRowPreservesKeys(m: map<string, BinInfo>, bin: string, info: BinInfo)
    requires KeysNormal(m) && AllAsciiDigits(bin) && |bin| >= 6
    ensures KeysNormal(PutRow(m, bin, info))
  {
    if |bin| == 8 {
      assert AllAsciiDigits(bin[..6]);
    }
  }

  /** Loading a row keeps every key normalized. */
  lemma BinLinePreservesKeys(m: map<string, BinInfo>, issuerCodes: map<string, string>, line: string)
    requires KeysNormal(m)
    ensures KeysNormal(WithBinLine(m, issuerCodes, line))
  {
    var parts := SplitComma(line);
    if |parts| >= 8 {
      PutRowPreservesKeys(m, Normalized(Trim(parts[2])), RowInfo(issuerCodes, parts));
    }
  }
}
