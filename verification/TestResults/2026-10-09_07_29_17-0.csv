TestResult.DisplayName,TestResult.Outcome,TestResult.Duration,TestResult.ResourceCount,RandomSeed
Query.SelectKeptHead (correctness),Failed,00:00:00.9041522,2055017,4
Query.SelectKeptHead (well-formedness),Passed,00:00:00.1707170,57592,4
