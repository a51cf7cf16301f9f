// Result and option types shared by the models.
module Common {
  datatype Option<+T> = None | Some(value: T)

  datatype Result<+T, +E> = Ok(value: T) | Err(error: E)

  const KNOWN_TYPES: set<string> := {
    "blocked_services", "dhcp", "dns", "filtering", "parental", "rewrite", "safebrowsing", "safesearch", "tls"}

  type UnknownType = name: string | name !in KNOWN_TYPES witness ""

  /** The config types, in the program's canonical order; Other is any other text. */
  datatype ConfigType =
    | BlockedServices | Dhcp | Dns | Filtering | Parental | Rewrite | Safebrowsing | Safesearch | Tls
    | Other(name: UnknownType)

  const ALL_CONFIG_TYPES: seq<ConfigType> :=
    [BlockedServices, Dhcp, Dns, Filtering, Parental, Rewrite, Safebrowsing, Safesearch, Tls]

  /** The text stored for a config type. */
  function TypeName(ct: ConfigType): string {
    match ct
    case BlockedServices => "blocked_services"
    case Dhcp => "dhcp"
    case Dns => "dns"
    case Filtering => "filtering"
    case Parental => "parental"
    case Rewrite => "rewrite"
    case Safebrowsing => "safebrowsing"
    case Safesearch => "safesearch"
    case Tls => "tls"
    case Other(name) => name
  }

  function TypeOf(text: string): ConfigType {
    if text == "blocked_services" then BlockedServices
    else if text == "dhcp" then Dhcp
    else if text == "dns" then Dns
    else if text == "filtering" then Filtering
    else if text == "parental" then Parental
    else if text == "rewrite" then Rewrite
    else if text == "safebrowsing" then Safebrowsing
    else if text == "safesearch" then Safesearch
    else if text == "tls" then Tls
    else Other(text)
  }

  lemma TypeOfName(ct: ConfigType)
    ensures TypeOf(TypeName(ct)) == ct
  {
    assert "dns"[0] != "tls"[0];
  }

  /** Every text is the name of one type, so the table's key on the text is the key on the type. */
  lemma TypeNamesAreTexts(text: string)
    ensures exists ct :: TypeName(ct) == text && forall other :: TypeName(other) == text ==> other == ct
  {
    var ct := TypeOf(text);
    assert TypeName(ct) == text;
    forall other | TypeName(other) == text
      ensures other == ct
    {
      TypeOfName(other);
    }
  }

  /** The known types, in the order of their names. */
  lemma AllTypesInOrder()
    ensures forall ct :: ct in ALL_CONFIG_TYPES <==> !ct.Other?
    ensures seq(|ALL_CONFIG_TYPES|, k requires 0 <= k < |ALL_CONFIG_TYPES| => TypeName(ALL_CONFIG_TYPES[k])) ==
      ["blocked_services", "dhcp", "dns", "filtering", "parental", "rewrite", "safebrowsing", "safesearch", "tls"]
  {
    var all := ALL_CONFIG_TYPES;
    assert all[0] == BlockedServices && all[1] == Dhcp && all[2] == Dns && all[3] == Filtering && all[4] == Parental;
    assert all[5] == Rewrite && all[6] == Safebrowsing && all[7] == Safesearch && all[8] == Tls;
  }

  function ToSet<T>(s: seq<T>): set<T> {
    set x | x in s
  }

  ghost predicate Distinct<T>(s: seq<T>) {
    forall i, j :: 0 <= i < j < |s| ==> s[i] != s[j]
  }

  lemma ToSetAppend<T>(s: seq<T>, x: T)
    ensures ToSet(s + [x]) == ToSet(s) + {x}
  {
    assert x in s + [x];
  }

  lemma ConcatDisjoint<T>(s: seq<T>, t: seq<T>)
    ensures ToSet(s + t) == ToSet(s) + ToSet(t)
    ensures Distinct(s) && Distinct(t) && ToSet(s) !! ToSet(t) ==> Distinct(s + t)
  {
    forall x | x in ToSet(s) + ToSet(t)
      ensures x in s + t
    {
    }
    if Distinct(s) && Distinct(t) && ToSet(s) !! ToSet(t) {
      forall i, j | 0 <= i < j < |s + t|
        ensures (s + t)[i] != (s + t)[j]
      {
        if i < |s| && |s| <= j {
          assert (s + t)[i] in ToSet(s) && (s + t)[j] in ToSet(t);
        }
      }
    }
  }

  lemma {:induction false} DistinctSize<T>(s: seq<T>)
    requires Distinct(s)
    ensures |ToSet(s)| == |s|
  {
    if s != [] {
      var front, last := s[..|s| - 1], s[|s| - 1];
      DistinctSize(front);
      assert s == front + [last];
      assert ToSet(s) == ToSet(front) + {last};
      assert last !in front;
    }
  }

  lemma SameMaps<K, V>(m: map<K, V>, n: map<K, V>)
    requires forall k :: k in m <==> k in n
    requires forall k :: k in m ==> m[k] == n[k]
    ensures m == n
  {
  }
}
